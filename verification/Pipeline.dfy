/**
 Delivering an evaluation job: look up or start the run, evaluate, complete or fail it, commit.
 Any step can raise, a commit can be lost or land unseen, and other sessions commit in between.
 */
module Pipeline {
  import opened Values
  import opened EvidencePointers
  import opened DayScores
  import opened ReviewerReports
  import opened RunTable
  import opened RunSession
  import Text

  /** One result of the evaluator. */
  datatype DayResult = DayResult(dayIndex: Value, score: Value, rubric: Field<Rubric>, evidence: Payload)

  datatype Evaluation =
    | Raises(raised: Raise, errorCode: string)
    | Evaluated(days: seq<DayResult>, reports: seq<ReportEntry>, overall: Value, recommendation: Value,
                confidence: Value, raw: Field<RawReport>)

  datatype Job = Job(sessionId: Option<int>, companyId: Option<int>, jobId: Option<string>)

  /** A snapshot that fails its contract, and what is recorded of it. */
  datatype SnapshotError = SnapshotError(basis: string, errorCode: string, message: string, metadata: Metadata)

  /** What the queries before the run find, and what the evaluator will do. */
  datatype Context = Context(
    companyId: int,
    scenarioVersionId: int,
    labels: seq<string>,
    basis: string,
    metadata: Metadata,
    snapshotError: Option<SnapshotError>,
    finalMetadata: Metadata,
    evaluation: Evaluation)

  datatype Response =
    | SkippedInvalidPayload
    | SessionNotFound
    | Forbidden
    | CompletedResponse(runId: int)
    | FailedResponse(runId: int, errorCode: string)
    | RunningResponse(runId: int)

  // `_build_day_scores`

  predicate ResultAccepted(d: DayResult) {
    CheckedUnit(d.score).Accepted? && d.score != Nil && d.rubric.Given? && d.evidence.Items?
  }

  function EntryFor(d: DayResult): Entry
    requires ResultAccepted(d)
  {
    Entry(d.dayIndex, Real(CheckedUnit(d.score).value.value), Some(d.rubric.value), d.evidence)
  }

  function EntriesFor(days: seq<DayResult>): seq<Entry>
    requires forall i | 0 <= i < |days| :: ResultAccepted(days[i])
  {
    seq(|days|, i requires 0 <= i < |days| => EntryFor(days[i]))
  }

  method BuildDayScores(days: seq<DayResult>) returns (r: Checked<seq<Entry>>)
    ensures r.Accepted? <==> forall i | 0 <= i < |days| :: ResultAccepted(days[i])
    ensures r.Accepted? ==> r.value == EntriesFor(days)
  {
    var entries: seq<Entry> := [];
    for i := 0 to |days|
      invariant |entries| == i
      invariant forall j | 0 <= j < i :: ResultAccepted(days[j]) && entries[j] == EntryFor(days[j])
    {
      var score := CheckedUnit(days[i].score);
      if score.Refused? || score.value.None? {
        return Refused(OutOfRange);
      }
      if !days[i].rubric.Given? {
        return Refused(ExpectedObject);
      }
      if days[i].evidence.NotAList? {
        return Refused(ExpectedList);
      }
      entries := entries + [Entry(days[i].dayIndex, Real(score.value.value), Some(days[i].rubric.value),
                                  days[i].evidence)];
    }
    return Accepted(entries);
  }

  predicate EvaluationUsable(e: Evaluation) {
    e.Evaluated? && forall i | 0 <= i < |e.days| :: ResultAccepted(e.days[i])
  }

  function CompletionOf(e: Evaluation, metadata: Metadata): Completion
    requires EvaluationUsable(e)
  {
    Completion(EntriesFor(e.days), e.reports, e.overall, e.recommendation, e.confidence, e.raw, Given(metadata))
  }

  // What one delivery may do to the database.

  /** One delivery to a candidate session: the job, what the queries find, the id the sequence gives
      out next, and what the world does meanwhile. */
  datatype Delivery = Delivery(
    job: Job,
    sessionId: int,
    context: Context,
    nextId: int,
    urlOk: string -> bool,
    lower: string -> string,
    world: World)

  /** The run is finished, with everything that belongs to it: a completed run has its marker and
      its notice, a failed one has no day scores. */
  predicate Finished(work: Work) {
    || (work.run.status == Completed && work.run.generatedAt.Some? && work.marker == work.run.generatedAt
        && work.notice)
    || (work.run.status == Failed && work.scores == [] && work.marker.None? && !work.notice)
  }

  /** The run is new, or was under way and keeps its identity. */
  predicate Opens(db: Db, work: Work) {
    work.id in db.runs ==>
      && UnderWay(db.runs[work.id].status)
      && db.runs[work.id].sessionId == work.run.sessionId
      && db.runs[work.id].startedAt == work.run.startedAt
      && db.runs[work.id].jobId == work.run.jobId
  }

  predicate Commits(before: Db, work: Work, after: Db) {
    && after == Written(before, work)
    && Opens(before, work) && JobFree(before, work.id, work.run.jobId) && WorkOk(work) && Finished(work)
  }

  ghost predicate Step(before: Db, after: Db) {
    before == after || exists work :: Commits(before, work, after)
  }

  /** The row a new run starts as: from the context, or from the snapshot that fails its contract. */
  function DraftOf(d: Delivery): Draft {
    if d.context.snapshotError.Some? then
      var error := d.context.snapshotError.value;
      Draft(d.sessionId, d.context.scenarioVersionId, d.context.labels, d.job.jobId, Some(error.basis), error.metadata)
    else
      Draft(d.sessionId, d.context.scenarioVersionId, d.context.labels, d.job.jobId, Some(d.context.basis),
            d.context.metadata)
  }

  function NewRun(d: Delivery): Work {
    Work(d.nextId, Started(DraftOf(d), d.world.startClock), [], [], None, false)
  }

  /** The run of the delivery as it takes it up: the one its job has, as committed, or a new one of
      this session, job, basis and labels. */
  predicate BegunFor(db: Db, d: Delivery, begun: Work) {
    && NoBlank(d.job.jobId)
    && if begun.id in db.runs then
         && d.context.snapshotError.None? && d.job.jobId.Some?
         && begun == Loaded(db, begun.id) && UnderWay(begun.run.status)
         && begun.run.sessionId == d.sessionId && begun.run.jobId == StrippedOption(d.job.jobId)
       else begun == NewRun(d)
  }

  /** The evaluation is stored whole: run, day scores, reviewer reports, marker and notice. */
  ghost predicate CommitsEvaluation(before: Db, begun: Work, after: Db, d: Delivery) {
    && d.context.snapshotError.None? && EvaluationUsable(d.context.evaluation)
    && exists work :: Commits(before, work, after) && work.id == begun.id &&
         CompletedWith(begun, CompletionOf(d.context.evaluation, d.context.finalMetadata), d.urlOk, d.lower, d.world,
                       work.(marker := None, notice := false))
  }

  /** What is recorded of a failure. */
  datatype Failing = Failing(now: int, errorCode: string, metadata: Metadata, message: string)

  const RUN_FAILED := "evaluation_run_failed"

  function EvaluationCode(e: Evaluation): string {
    if e.Raises? then e.errorCode else "evaluation_failed"
  }

  /** The failure of a delivery: its snapshot's, or its evaluation's. */
  function FailureOf(d: Delivery): Failing {
    if d.context.snapshotError.Some? then
      var error := d.context.snapshotError.value;
      Failing(d.world.failClock, error.errorCode, error.metadata, error.message)
    else
      Failing(d.world.failClock, EvaluationCode(d.context.evaluation), d.context.finalMetadata, RUN_FAILED)
  }

  function FailedWork(work: Work, f: Failing): Work {
    work.(run := FailedFrom(work.run, f.now, f.errorCode, f.metadata, f.message))
  }

  /** The reports a failed run may have: those it had, or those of the evaluation as well. */
  ghost predicate MayKeep(begun: Work, d: Delivery, reports: seq<ReviewerReport>) {
    || reports == begun.reports
    || (d.context.snapshotError.None? && EvaluationUsable(d.context.evaluation)
        && ReportsAdded(begun.reports, d.context.evaluation.reports, d.urlOk, d.lower, reports))
  }

  /** The run is recorded as failed: the row as it was begun with the failure written over it. */
  ghost predicate CommitsFailure(before: Db, begun: Work, after: Db, d: Delivery) {
    exists reports :: MayKeep(begun, d, reports)
        && Commits(before, FailedWork(begun.(reports := reports), FailureOf(d)), after)
  }

  ghost predicate Concludes(before: Db, begun: Work, after: Db, d: Delivery) {
    BegunFor(before, d, begun)
        && (CommitsEvaluation(before, begun, after, d) || CommitsFailure(before, begun, after, d))
  }

  /** All a delivery may commit: its own run, completed with the whole evaluation or failed. */
  ghost predicate Delivers(before: Db, after: Db, d: Delivery) {
    exists begun :: Concludes(before, begun, after, d)
  }

  lemma DeliversIsStep(before: Db, after: Db, d: Delivery)
    requires Delivers(before, after, d)
    ensures Step(before, after)
  {
  }

  /** A run in the session that can still be finished. */
  predicate Open(db: Db, work: Work) {
    && DistinctDays(work.scores) && DistinctReports(work.reports)
    && Opens(db, work) && work.marker.None? && !work.notice
    && UnderWay(work.run.status) && RunOk(work.run) && work.scores == []
  }

  lemma LoadedIsOpen(db: Db, id: int)
    requires DbOk(db) && id in db.runs && UnderWay(db.runs[id].status)
    ensures Open(db, Loaded(db, id))
  {
    assert ChildrenOk(db, id);
  }

  /** What is left of a begun run when its evaluation did not get through: still open, the row as it
      was. */
  ghost predicate Failable(db: Db, begun: Work, now: Work, d: Delivery) {
    now.id == begun.id && Open(db, now) && now.run == begun.run && MayKeep(begun, d, now.reports)
  }

  lemma CompletedIsWhole(db: Db, before: Work, after: Work, c: Completion, urlOk: string -> bool,
                         lower: string -> string, world: World)
    requires Open(db, before) && CompletedWith(before, c, urlOk, lower, world, after)
    ensures WorkOk(after) && Opens(db, after) && after.run.status == Completed && after.run.generatedAt.Some?
    ensures after.run.startedAt == before.run.startedAt
  {
  }

  // The steps.

  /** The commit of a finished run. One that is lost leaves the run as committed before, if it was. */
  method CommitFinished(session: Session, p: Point) returns (r: Attempt<()>)
    requires session.work.Some? && DbOk(session.database.committed)
    requires Opens(session.database.committed, session.work.value) && WorkOk(session.work.value)
    requires Finished(session.work.value)
    modifies session`work, session`poisoned, session.database
    ensures session.database.committed == old(session.database.committed)
            || Commits(old(session.database.committed), old(session.work).value, session.database.committed)
    ensures r.Ok? ==> Commits(old(session.database.committed), old(session.work).value, session.database.committed)
    ensures r.Threw? && !session.poisoned && session.work.Some? ==>
              || session.work == old(session.work)
              || (var id, db := old(session.work).value.id, session.database.committed;
                  db == old(session.database.committed) && id in db.runs && session.work.value == Loaded(db, id)
                      && Open(db, Loaded(db, id)))
    ensures (Calm(session.world) && !old(session.poisoned)
             && JobFree(old(session.database.committed), old(session.work).value.id,
                        old(session.work).value.run.jobId)) ==> r.Ok?
  {
    ghost var work, db := session.work.value, session.database.committed;
    r := session.Commit(p);
    if work.id in db.runs {
      LoadedIsOpen(db, work.id);
    }
  }

  /** Everything of a completed run but the commit. */
  method Finalize(session: Session, c: Completion, urlOk: string -> bool, lower: string -> string, id: int)
    returns (r: Attempt<()>)
    requires session.work.Some? && Open(session.database.committed, session.work.value) && session.work.value.id == id
    requires Steady(session.world) && session.work.value.run.startedAt <= Whole(session.world.completeClock)
    modifies session`work, session`poisoned
    ensures r.Ok? ==>
              && session.work.Some? && !session.poisoned && session.work.value.id == id
              && session.work.value.run.status == Completed
              && CompletedWith(old(session.work).value, c, urlOk, lower, session.world,
                               session.work.value.(marker := None, notice := false))
              && WorkOk(session.work.value) && Opens(session.database.committed, session.work.value)
              && Finished(session.work.value)
    ensures r.Threw? && !session.poisoned && session.work.Some? && session.work.value.run.status != Completed ==>
              && session.work.value.id == id && Open(session.database.committed, session.work.value)
              && session.work.value.run == old(session.work).value.run
              && ReportsMayGrow(old(session.work).value.reports, c.reports, urlOk, lower, session.work.value.reports)
    ensures session.CanComplete(old(session.work), old(session.poisoned), id) ==>
              && Decided(VerdictOf(c, urlOk, lower), session.poisoned, session.work, r)
              && (VerdictOf(c, urlOk, lower) == Refuses ==> ReportsLeft(c, urlOk, lower, session.work.value.reports))
  {
    ghost var before := session.work.value;
    var completed := session.CompleteRun(id, c, urlOk, lower);
    if completed.Threw? {
      return Threw(completed.raised);
    }
    ghost var finished := session.work.value;
    r := session.MarkReady();
    CompletedIsWhole(session.database.committed, before, finished, c, urlOk, lower, session.world);
    assert session.work.value.(marker := None, notice := false) == finished;
  }

  /** How far a session got with a run in a calm world. */
  predicate Decided(verdict: Verdict, poisoned: bool, work: Option<Work>, r: Attempt<()>) {
    match verdict
    case Completes => r.Ok?
    case Refuses => r == Threw(Error) && !poisoned && work.Some? && work.value.run.status == Running
    case Sticks => r.Threw? && (r.raised != Error || poisoned || (work.Some? && work.value.run.status == Completed))
  }

  ghost predicate CalmStart(session: Session, work: Option<Work>, poisoned: bool, db: Db, id: int) {
    session.CanComplete(work, poisoned, id) && JobFree(db, id, work.value.run.jobId)
  }

  function VerdictOn(d: Delivery): Verdict {
    var e := d.context.evaluation;
    if e.Raises? then if e.raised == Error then Refuses else Sticks
    else if !EvaluationUsable(e) then Refuses
    else VerdictOf(CompletionOf(e, d.context.finalMetadata), d.urlOk, d.lower)
  }

  /** The reports of a new run that fails in a calm world. */
  predicate LeftWith(d: Delivery, reports: seq<ReviewerReport>) {
    if EvaluationUsable(d.context.evaluation)
    then ReportsLeft(CompletionOf(d.context.evaluation, d.context.finalMetadata), d.urlOk, d.lower, reports)
    else reports == []
  }

  /** `_evaluate_and_finalize_run` */
  method EvaluateAndFinalize(session: Session, d: Delivery, id: int) returns (r: Attempt<()>)
    requires session.world == d.world && d.context.snapshotError.None?
    requires DbOk(session.database.committed)
    requires session.work.Some? && session.work.value.id == id && Open(session.database.committed, session.work.value)
    requires BegunFor(session.database.committed, d, session.work.value)
    requires Steady(d.world) && session.work.value.run.startedAt <= Whole(d.world.completeClock)
    modifies session`work, session`poisoned, session.database
    ensures r.Ok? || session.database.committed != old(session.database.committed) ==>
              CommitsEvaluation(old(session.database.committed), old(session.work).value, session.database.committed, d)
    ensures r.Threw? && !session.poisoned && session.work.Some? && session.work.value.run.status != Completed ==>
              && session.database.committed == old(session.database.committed)
              && Failable(session.database.committed, old(session.work).value, session.work.value, d)
    ensures CalmStart(session, old(session.work), old(session.poisoned), old(session.database.committed), id) ==>
              && Decided(VerdictOn(d), session.poisoned, session.work, r)
              && (VerdictOn(d) == Refuses ==> LeftWith(d, session.work.value.reports))
              && (r.Threw? ==> session.database.committed == old(session.database.committed))
  {
    if d.context.evaluation.Raises? {
      return Threw(d.context.evaluation.raised);
    }
    var entries := BuildDayScores(d.context.evaluation.days);
    if entries.Refused? {
      return Threw(Error);
    }
    var e := d.context.evaluation;
    var c := Completion(entries.value, e.reports, e.overall, e.recommendation, e.confidence, e.raw,
                        Given(d.context.finalMetadata));
    var finalized := Finalize(session, c, d.urlOk, d.lower, id);
    if finalized.Threw? {
      return Threw(finalized.raised);
    }
    r := CommitFinished(session, FinalCommit);
  }

  /** `fail_run` and the commit, of `_mark_failed_run` and `_record_invalid_snapshot_run`. A run the
      session already shows as completed is not failed. */
  method MarkFailed(session: Session, id: int, f: Failing, p: Point) returns (r: Attempt<()>)
    requires DbOk(session.database.committed) && f.now == session.world.failClock
    requires !session.poisoned && session.work.Some? && session.work.value.run.status != Completed ==>
               session.work.value.id == id && Open(session.database.committed, session.work.value)
    modifies session`work, session`poisoned, session.database
    ensures r.Ok? || session.database.committed != old(session.database.committed) ==>
              && !old(session.poisoned) && old(session.work).Some? && old(session.work).value.run.status != Completed
              && Commits(old(session.database.committed), FailedWork(old(session.work).value, f),
                         session.database.committed)
    ensures (Calm(session.world) && !old(session.poisoned) && old(session.work).Some?
             && old(session.work).value.run.status == Running && old(session.work).value.run.startedAt <= Whole(f.now)
             && JobFree(old(session.database.committed), id, old(session.work).value.run.jobId)) ==> r.Ok?
  {
    var failed := session.FailRun(id, f.errorCode, f.metadata, f.message);
    if failed.Threw? {
      return Threw(failed.raised);
    }
    r := CommitFinished(session, p);
  }

  lemma StartedIsOpen(db: Db, d: Delivery)
    requires d.nextId !in db.runs
    ensures Open(db, NewRun(d))
  {
  }

  /** `_record_invalid_snapshot_run` */
  method RecordInvalidSnapshot(session: Session, d: Delivery) returns (r: Attempt<()>)
    requires session.work == None && session.world == d.world && d.nextId !in session.database.committed.runs
    requires DbOk(session.database.committed) && Steady(d.world) && d.context.snapshotError.Some?
    modifies session`work, session`poisoned, session.database
    ensures r.Ok? || session.database.committed != old(session.database.committed) ==>
              && NoBlank(d.job.jobId) && JobFree(old(session.database.committed), d.nextId, StrippedOption(d.job.jobId))
              && Commits(old(session.database.committed), FailedWork(NewRun(d), FailureOf(d)),
                         session.database.committed)
    ensures (Calm(d.world) && !old(session.poisoned) && DraftAccepted(DraftOf(d))
             && JobFree(old(session.database.committed), d.nextId, StrippedOption(d.job.jobId))) ==> r.Ok?
  {
    var started := session.StartRun(DraftOf(d), d.nextId);
    if started.Threw? {
      return Threw(started.raised);
    }
    StartedIsOpen(session.database.committed, d);
    WholeKeepsOrder(d.world.startClock, d.world.failClock);
    r := MarkFailed(session, d.nextId, FailureOf(d), SnapshotCommit);
  }

  // Looking the run up.

  function RunsOfJob(db: Db, jobId: string, sessionId: int): set<int> {
    set id | id in db.runs && db.runs[id].jobId == Some(jobId) && db.runs[id].sessionId == sessionId
  }

  function RunsOfBasis(db: Db, basis: string, sessionId: int): set<int> {
    set id | id in db.runs && db.runs[id].basis == Some(basis) && db.runs[id].sessionId == sessionId
  }

  /** The run a job has had already, once it is finished. */
  function FinishedRun(db: Db, jobId: Option<string>, sessionId: int): (r: Option<int>)
    ensures r.Some? ==> r.value in db.runs && Terminal(db.runs[r.value].status)
  {
    if jobId.None? || Text.Blank(jobId.value) then None
    else
      var id := Latest(db.runs, RunsOfJob(db, Text.Strip(jobId.value), sessionId));
      if id.Some? && Terminal(db.runs[id.value].status) then id else None
  }

  /** The job has no run yet, and its run can be created. */
  predicate StartsAnew(db: Db, d: Delivery) {
    && d.nextId !in db.runs && DraftAccepted(DraftOf(d)) && JobFree(db, d.nextId, StrippedOption(d.job.jobId))
    && (d.job.jobId.None? ==> RunsOfBasis(db, d.context.basis, d.sessionId) == {})
  }

  /** What a finished run answers to a later delivery. */
  function TerminalResponse(id: int, run: Run): Response {
    if run.status == Completed then CompletedResponse(id) else FailedResponse(id, ErrorCode(run))
  }

  /** What a job that needs no new run is answered: by the finished run of its id, or, when it has
      no id, by the latest run of its basis, finished or not. */
  function Answering(db: Db, d: Delivery): Option<Response> {
    if d.job.jobId.Some? then
      var run := FinishedRun(db, d.job.jobId, d.sessionId);
      if run.Some? then Some(TerminalResponse(run.value, db.runs[run.value])) else None
    else
      var latest := Latest(db.runs, RunsOfBasis(db, d.context.basis, d.sessionId));
      if latest.None? then None
      else if Terminal(db.runs[latest.value].status) then Some(TerminalResponse(latest.value, db.runs[latest.value]))
      else Some(RunningResponse(latest.value))
  }

  function LookupOf(job: Job): Point {
    if job.jobId.Some? then ReadJob else ReadBasis
  }

  datatype Found = Proceed(id: int) | Answer(response: Response)

  /** `_get_or_start_run`, by job id, or by basis when the job has none. */
  method GetOrStart(session: Session, d: Delivery) returns (r: Attempt<Found>)
    requires session.work == None && session.world == d.world && d.context.snapshotError.None?
    requires d.nextId !in session.database.committed.runs && DbOk(session.database.committed)
    modifies session`work, session`poisoned
    ensures r.Ok? && r.value.Proceed? ==>
              && !session.poisoned && session.work.Some? && session.work.value.id == r.value.id
              && Open(session.database.committed, session.work.value)
              && BegunFor(session.database.committed, d, session.work.value)
    ensures d.job.jobId.Some? && Text.Blank(d.job.jobId.value) ==> r.Threw?
    ensures var answer := Answering(session.database.committed, d);
            if answer.Some? then
              && (r.Threw? || r == Ok(Answer(answer.value)))
              && (!old(session.poisoned) && d.world.fault(LookupOf(d.job)) == NoFault ==> r.Ok?)
            else r.Threw? || r.value.Proceed?
    ensures Calm(d.world) && !old(session.poisoned) && StartsAnew(session.database.committed, d) ==>
              r == Ok(Proceed(d.nextId))
  {
    var db := session.database.committed;
    var found: Option<int> := None;
    if d.job.jobId.Some? {
      var reached := session.Reach(ReadJob);
      if reached.Threw? || Text.Blank(d.job.jobId.value) {
        return Threw(if reached.Threw? then reached.raised else Error);
      }
      found := Latest(db.runs, RunsOfJob(db, Text.Strip(d.job.jobId.value), d.sessionId));
    } else {
      var reached := session.Reach(ReadBasis);
      if reached.Threw? {
        return Threw(reached.raised);
      }
      found := Latest(db.runs, RunsOfBasis(db, d.context.basis, d.sessionId));
    }
    if found.None? {
      var started := session.StartRun(DraftOf(d), d.nextId);
      if started.Threw? {
        return Threw(started.raised);
      }
      StartedIsOpen(db, d);
      return Ok(Proceed(d.nextId));
    }
    var id := found.value;
    session.work := Some(Loaded(db, id));
    if Terminal(db.runs[id].status) {
      return Ok(Answer(TerminalResponse(id, db.runs[id])));
    }
    if d.job.jobId.None? {
      return Ok(Answer(RunningResponse(id)));
    }
    LoadedIsOpen(db, id);
    return Ok(Proceed(id));
  }

  /** One job id names at most one run, so the finished run of a job is the one found for it. */
  lemma FinishedRunIsFound(db: Db, jobId: Option<string>, sessionId: int, id: int)
    requires DbOk(db) && jobId.Some? && !Text.Blank(jobId.value)
    requires id in db.runs && db.runs[id].jobId == StrippedOption(jobId) && db.runs[id].sessionId == sessionId
    requires Terminal(db.runs[id].status)
    ensures FinishedRun(db, jobId, sessionId) == Some(id)
  {
    var among := RunsOfJob(db, Text.Strip(jobId.value), sessionId);
    assert id in among;
    SameJobSameRun(db, Latest(db.runs, among).value, id);
  }

  lemma SameJobSameRun(db: Db, i: int, j: int)
    requires JobsUnique(db) && i in db.runs && j in db.runs
    requires db.runs[i].jobId.Some? && db.runs[i].jobId == db.runs[j].jobId
    ensures i == j
  {
  }

  /** A run of the delivery's session with its basis. */
  predicate HasBasis(db: Db, d: Delivery, id: int) {
    id in db.runs && db.runs[id].sessionId == d.sessionId && db.runs[id].basis == Some(d.context.basis)
  }

  /** A finished run of the delivery's session under its job id. */
  predicate HasJob(db: Db, d: Delivery, id: int) {
    && id in db.runs && db.runs[id].sessionId == d.sessionId
    && d.job.jobId.Some? && !Text.Blank(d.job.jobId.value)
    && db.runs[id].jobId == Some(Text.Strip(d.job.jobId.value))
    && (db.runs[id].status == Completed || db.runs[id].status == Failed)
  }

  predicate Answers(run: Run, id: int, answer: Response) {
    match run.status
    case Completed => answer == CompletedResponse(id)
    case Failed =>
      answer == FailedResponse(id, if run.errorCode.Some? && run.errorCode.value != "" then run.errorCode.value
                                   else "evaluation_failed")
    case _ => answer == RunningResponse(id)
  }

  /** A job with an id is answered if and only if a finished run of its session has that id; one without
      if and only if its session has a run of its basis, by the latest of those. */
  lemma AnsweringMeans(db: Db, d: Delivery)
    requires DbOk(db)
    ensures var answer := Answering(db, d);
            if d.job.jobId.Some?
            then if exists id :: HasJob(db, d, id)
                 then answer.Some? && forall id | HasJob(db, d, id) :: Answers(db.runs[id], id, answer.value)
                 else answer == None
            else if exists id :: HasBasis(db, d, id)
                 then answer.Some? && exists id | HasBasis(db, d, id) ::
                   Answers(db.runs[id], id, answer.value) && forall other | HasBasis(db, d, other) && other != id ::
                     || db.runs[other].startedAt < db.runs[id].startedAt
                     || (db.runs[other].startedAt == db.runs[id].startedAt && other < id)
                 else answer == None
  {
    if d.job.jobId.Some? {
      if some :| HasJob(db, d, some) {
        FinishedRunIsFound(db, d.job.jobId, d.sessionId, some);
        forall id | HasJob(db, d, id) ensures id == some {
          FinishedRunIsFound(db, d.job.jobId, d.sessionId, id);
        }
      } else {
        var found := FinishedRun(db, d.job.jobId, d.sessionId);
        assert found.Some? ==> HasJob(db, d, found.value);
      }
    } else {
      LatestOfBasis(db, d);
    }
  }

  lemma LatestOfBasis(db: Db, d: Delivery)
    ensures var latest := Latest(db.runs, RunsOfBasis(db, d.context.basis, d.sessionId));
            if latest.None? then forall id :: !HasBasis(db, d, id)
            else HasBasis(db, d, latest.value) && forall other | HasBasis(db, d, other) && other != latest.value ::
                   || db.runs[other].startedAt < db.runs[latest.value].startedAt
                   || (db.runs[other].startedAt == db.runs[latest.value].startedAt && other < latest.value)
  {
    var among := RunsOfBasis(db, d.context.basis, d.sessionId);
    forall id ensures id in among <==> HasBasis(db, d, id) {
    }
  }

  // One delivery.

  /** What other sessions may have committed since the run was looked up: anything but a change to
      a run this session holds a lock on, or a run under the id the sequence gave this session. */
  predicate Undisturbed(begun: Db, now: Db, job: Job, nextId: int) {
    && nextId !in begun.runs && nextId !in now.runs
    && forall id | id in begun.runs && UnderWay(begun.runs[id].status)
                   && job.jobId.Some? && begun.runs[id].jobId == StrippedOption(job.jobId) ::
         id in now.runs && Loaded(now, id) == Loaded(begun, id)
  }

  /** No run under way started in the future. */
  predicate StartsPast(db: Db, now: int) {
    forall id | id in db.runs && UnderWay(db.runs[id].status) :: db.runs[id].startedAt <= Whole(now)
  }

  /** In a calm world the answer is decided by what the evaluator produced. When it sticks, the
      delivery raises and leaves no trace. */
  predicate Concluded(before: Db, after: Db, d: Delivery, id: int, r: Attempt<Response>) {
    match VerdictOn(d)
    case Completes => r == Ok(CompletedResponse(id))
    case Refuses => r == Ok(FailedResponse(id, EvaluationCode(d.context.evaluation)))
        && LeftWith(d, ReportsOf(after, id))
    case Sticks => r.Threw? && after == before
  }

  /** The answer says what was committed. */
  ghost predicate Answered(before: Db, begun: Work, after: Db, d: Delivery, response: Response) {
    && BegunFor(before, d, begun)
    && match response
       case CompletedResponse(id) => begun.id == id && CommitsEvaluation(before, begun, after, d)
       case FailedResponse(id, errorCode) =>
         begun.id == id && errorCode == FailureOf(d).errorCode && CommitsFailure(before, begun, after, d)
       case _ => false
  }

  lemma FailureCommitted(before: Db, begun: Work, failable: Work, after: Db, d: Delivery)
    requires Failable(before, begun, failable, d) && begun.scores == [] && begun.marker.None? && !begun.notice
    requires Commits(before, FailedWork(failable, FailureOf(d)), after)
    ensures CommitsFailure(before, begun, after, d) && ReportsOf(after, begun.id) == failable.reports
  {
    assert FailedWork(failable, FailureOf(d)) == FailedWork(begun.(reports := failable.reports), FailureOf(d));
  }

  /** The run the delivery works on, once it has one: evaluate it, or record that it failed. */
  method Evaluate(session: Session, d: Delivery, id: int) returns (r: Attempt<Response>)
    requires session.world == d.world && d.context.snapshotError.None?
    requires DbOk(session.database.committed)
    requires session.work.Some? && session.work.value.id == id && Open(session.database.committed, session.work.value)
    requires BegunFor(session.database.committed, d, session.work.value)
    requires Steady(d.world) && session.work.value.run.startedAt <= Whole(d.world.completeClock)
    modifies session`work, session`poisoned, session.database
    ensures session.database.committed != old(session.database.committed) ==>
              Concludes(old(session.database.committed), old(session.work).value, session.database.committed, d)
    ensures r.Ok? ==>
              r.value == CompletedResponse(id)
              || r.value == FailedResponse(id, EvaluationCode(d.context.evaluation))
    ensures r.Ok? ==>
              Answered(old(session.database.committed), old(session.work).value, session.database.committed, d, r.value)
    ensures CalmStart(session, old(session.work), old(session.poisoned), old(session.database.committed), id) ==>
              Concluded(old(session.database.committed), session.database.committed, d, id, r)
  {
    ghost var db, begun := session.database.committed, session.work.value;
    var evaluated := EvaluateAndFinalize(session, d, id);
    if evaluated.Ok? {
      return Ok(CompletedResponse(id));
    }
    if evaluated.raised != Error {
      return Threw(evaluated.raised);
    }
    StepKeepsOk(db, session.database.committed);
    WholeKeepsOrder(d.world.completeClock, d.world.failClock);
    ghost var now, left := session.database.committed, session.work;
    var marked := MarkFailed(session, id, FailureOf(d), FailureCommit);
    if marked.Ok? || session.database.committed != now {
      FailureCommitted(db, begun, left.value, session.database.committed, d);
    }
    if marked.Threw? {
      return Threw(marked.raised);
    }
    return Ok(FailedResponse(id, EvaluationCode(d.context.evaluation)));
  }

  lemma CommitKeepsChildren(before: Db, work: Work, after: Db, id: int)
    requires DbOk(before) && Commits(before, work, after)
               && id in after.runs.Keys + after.scores.Keys + after.reports.Keys
    ensures ChildrenOk(after, id)
  {
    if id != work.id {
      assert ChildrenOk(before, id);
    }
  }

  lemma CommitKeepsJobs(before: Db, work: Work, after: Db)
    requires JobsUnique(before) && Commits(before, work, after)
    ensures JobsUnique(after)
  {
  }

  lemma StepKeepsOk(before: Db, after: Db)
    requires DbOk(before) && Step(before, after)
    ensures DbOk(after)
  {
    if before != after {
      var work :| Commits(before, work, after);
      CommitKeepsJobs(before, work, after);
      forall id | id in after.runs.Keys + after.scores.Keys + after.reports.Keys ensures ChildrenOk(after, id) {
        CommitKeepsChildren(before, work, after, id);
      }
    }
  }

  /** Other sessions commit. */
  method OthersCommit(database: Database, others: Db)
    modifies database
    ensures database.committed == others
  {
    database.committed := others;
  }

  /** The run the session works on is the delivery's, and open, for `others` too. */
  lemma StillOpen(begun: Db, others: Db, d: Delivery, work: Work)
    requires Undisturbed(begun, others, d.job, d.nextId) && Open(begun, work) && BegunFor(begun, d, work)
    ensures Open(others, work) && BegunFor(others, d, work)
  {
    if work.id in begun.runs {
      assert Loaded(others, work.id) == Loaded(begun, work.id);
    }
  }

  /** A run there already answers, and nothing is committed. */
  predicate AnsweredByRun(before: Db, after: Db, d: Delivery, r: Attempt<Response>) {
    var answer := Answering(before, d);
    answer.Some? ==>
      && after == before
      && (r.Threw? || r == Ok(answer.value))
      && (d.world.fault(LookupOf(d.job)) == NoFault ==> r.Ok?)
  }

  ghost predicate FailsCalmly(others: Db, d: Delivery) {
    Calm(d.world) && DraftAccepted(DraftOf(d)) && JobFree(others, d.nextId, StrippedOption(d.job.jobId))
  }

  /** The answer of a delivery is about the run it committed. */
  ghost predicate Truthful(before: Db, after: Db, d: Delivery, r: Attempt<Response>) {
    r.Ok? ==> exists begun :: Answered(before, begun, after, d, r.value)
  }

  /** A delivery whose snapshot fails its contract. */
  method DeliverInvalid(database: Database, d: Delivery) returns (r: Attempt<Response>)
    requires d.context.snapshotError.Some? && Steady(d.world)
    requires DbOk(database.committed) && d.nextId !in database.committed.runs
    modifies database
    ensures database.committed == old(database.committed) || Delivers(old(database.committed), database.committed, d)
    ensures Truthful(old(database.committed), database.committed, d, r)
    ensures r.Ok? ==> r.value == FailedResponse(d.nextId, d.context.snapshotError.value.errorCode)
    ensures FailsCalmly(old(database.committed), d) ==> r.Ok?
  {
    var session := new Session(database, d.world);
    ghost var before := database.committed;
    var recorded := RecordInvalidSnapshot(session, d);
    ghost var begun := NewRun(d);
    if recorded.Ok? || database.committed != before {
      assert FailedWork(begun.(reports := begun.reports), FailureOf(d)) == FailedWork(begun, FailureOf(d));
      assert Concludes(before, begun, database.committed, d);
    }
    if recorded.Threw? {
      return Threw(recorded.raised);
    }
    var response := FailedResponse(d.nextId, d.context.snapshotError.value.errorCode);
    assert Answered(before, begun, database.committed, d, response);
    return Ok(response);
  }

  lemma StartedInTime(begun: Db, d: Delivery, work: Work)
    requires Steady(d.world) && StartsPast(begun, d.world.startClock) && BegunFor(begun, d, work)
    ensures work.run.startedAt <= Whole(d.world.completeClock)
  {
    WholeKeepsOrder(d.world.startClock, d.world.completeClock);
  }

  method EvaluateAmongOthers(session: Session, d: Delivery, others: Db, id: int) returns (r: Attempt<Response>)
    requires session.world == d.world && d.context.snapshotError.None? && DbOk(others)
    requires session.work.Some? && session.work.value.id == id && Open(others, session.work.value)
    requires BegunFor(others, d, session.work.value)
    requires Steady(d.world) && session.work.value.run.startedAt <= Whole(d.world.completeClock)
    modifies session`work, session`poisoned, session.database
    ensures session.database.committed == others || Delivers(others, session.database.committed, d)
    ensures r.Ok? ==> r.value.CompletedResponse? || r.value.FailedResponse?
    ensures Truthful(others, session.database.committed, d, r)
    ensures CalmStart(session, old(session.work), old(session.poisoned), others, id) ==>
              Concluded(others, session.database.committed, d, id, r)
  {
    OthersCommit(session.database, others);
    r := Evaluate(session, d, id);
  }

  ghost predicate RunsCalmly(begun: Db, others: Db, d: Delivery) {
    Calm(d.world) && StartsAnew(begun, d) && JobFree(others, d.nextId, StrippedOption(d.job.jobId))
  }

  /** A delivery with a valid snapshot, as far as the evaluator. */
  method Begin(session: Session, d: Delivery, ghost others: Db) returns (r: Attempt<Found>)
    requires session.work == None && !session.poisoned && session.world == d.world && d.context.snapshotError.None?
    requires DbOk(session.database.committed) && Undisturbed(session.database.committed, others, d.job, d.nextId)
    requires Steady(d.world) && StartsPast(session.database.committed, d.world.startClock)
    modifies session`work, session`poisoned
    ensures r.Ok? && r.value.Proceed? ==>
              && session.work.Some? && session.work.value.id == r.value.id
              && Open(others, session.work.value) && BegunFor(others, d, session.work.value)
              && session.work.value.run.startedAt <= Whole(d.world.completeClock)
    ensures var answer := Answering(session.database.committed, d);
            if answer.Some? then
              && (r.Threw? || r == Ok(Answer(answer.value)))
              && (d.world.fault(LookupOf(d.job)) == NoFault ==> r.Ok?)
            else r.Threw? || r.value.Proceed?
    ensures RunsCalmly(session.database.committed, others, d) ==>
              r == Ok(Proceed(d.nextId)) && CalmStart(session, session.work, session.poisoned, others, d.nextId)
  {
    ghost var begun := session.database.committed;
    r := GetOrStart(session, d);
    if r.Threw? || r.value.Answer? {
      return r;
    }
    StillOpen(begun, others, d, session.work.value);
    StartedInTime(begun, d, session.work.value);
    var ready := session.Reach(Setup);
    if ready.Threw? {
      return Threw(ready.raised);
    }
  }

  /** A delivery with a valid snapshot. */
  method DeliverValid(database: Database, d: Delivery, others: Db) returns (r: Attempt<Response>)
    requires DbOk(database.committed) && DbOk(others) && Undisturbed(database.committed, others, d.job, d.nextId)
    requires Steady(d.world) && StartsPast(database.committed, d.world.startClock) && d.context.snapshotError.None?
    modifies database
    ensures database.committed == old(database.committed) || database.committed == others
            || Delivers(others, database.committed, d)
    ensures AnsweredByRun(old(database.committed), database.committed, d, r)
    ensures Answering(old(database.committed), d).None? ==> Truthful(others, database.committed, d, r)
    ensures RunsCalmly(old(database.committed), others, d) ==>
              Answering(old(database.committed), d).None? && Concluded(others, database.committed, d, d.nextId, r)
  {
    var session := new Session(database, d.world);
    var found := Begin(session, d, others);
    if found.Threw? {
      return Threw(found.raised);
    }
    if found.value.Answer? {
      return Ok(found.value.response);
    }
    r := EvaluateAmongOthers(session, d, others, found.value.id);
  }

  /** `process_evaluation_run_job_impl` */
  method Process(database: Database, world: World, job: Job, context: Option<Context>, nextId: int, others: Db,
                 urlOk: string -> bool, lower: string -> string) returns (r: Attempt<Response>)
    requires DbOk(database.committed) && DbOk(others) && Undisturbed(database.committed, others, job, nextId)
    requires Steady(world) && StartsPast(database.committed, world.startClock)
    modifies database
    ensures database.committed == old(database.committed) || Step(others, database.committed)
    ensures job.sessionId.None? || job.companyId.None? ==>
              database.committed == old(database.committed) && r == Ok(SkippedInvalidPayload)
    ensures job.sessionId.Some? && job.companyId.Some? && context.None? ==>
              database.committed == old(database.committed) && r == Ok(SessionNotFound)
    ensures (job.sessionId.Some? && job.companyId.Some? && context.Some?
             && context.value.companyId != job.companyId.value) ==>
              database.committed == old(database.committed) && r == Ok(Forbidden)
    ensures (job.sessionId.Some? && job.companyId.Some? && context.Some?
             && context.value.companyId == job.companyId.value) ==>
              Processed(old(database.committed), others, database.committed,
                        Delivery(job, job.sessionId.value, context.value, nextId, urlOk, lower, world), r)
  {
    if job.sessionId.None? || job.companyId.None? {
      return Ok(SkippedInvalidPayload);
    }
    if context.None? {
      return Ok(SessionNotFound);
    }
    if context.value.companyId != job.companyId.value {
      return Ok(Forbidden);
    }
    var d := Delivery(job, job.sessionId.value, context.value, nextId, urlOk, lower, world);
    if context.value.snapshotError.Some? {
      OthersCommit(database, others);
      r := DeliverInvalid(database, d);
    } else {
      r := DeliverValid(database, d, others);
    }
  }

  /** What one admitted delivery does, whatever fails and whoever commits meanwhile: it commits
      nothing, or finishes its own run in one commit, and what it answers is so. With a valid
      snapshot a run that is there already answers; in a calm world the evaluator decides. */
  ghost predicate Processed(before: Db, others: Db, after: Db, d: Delivery, r: Attempt<Response>) {
    && (after == before || after == others || Delivers(others, after, d))
    && (if d.context.snapshotError.Some? then
          && Truthful(others, after, d, r)
          && (r.Ok? ==> r.value == FailedResponse(d.nextId, d.context.snapshotError.value.errorCode))
          && (FailsCalmly(others, d) ==> r.Ok?)
        else
          && AnsweredByRun(before, after, d, r)
          && (Answering(before, d).None? ==> Truthful(others, after, d, r))
          && (RunsCalmly(before, others, d) ==>
                Answering(before, d).None? && Concluded(others, after, d, d.nextId, r)))
  }
}
