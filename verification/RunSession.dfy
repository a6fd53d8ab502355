/**
 A database session working on one evaluation run. Reads, flushes and commits can each fail; a
 failed flush poisons the session, so that nothing it does afterwards succeeds; and whatever is
 not committed when the session is left is rolled back. The session hands out one object per
 row, so what one call has set, a later call sees, flushed or not.
 */
module RunSession {
  import opened Values
  import opened DayScores
  import opened ReviewerReports
  import opened RunTable
  import Text

  /** A crash or a cancellation is not caught by `except Exception`; an error is. */
  datatype Raise = Error | Retryable | Crash

  datatype Attempt<+T> = Ok(value: T) | Threw(raised: Raise) {
    predicate IsFailure() {
      Threw?
    }

    function PropagateFailure<U>(): Attempt<U>
      requires Threw?
    {
      Threw(raised)
    }

    function Extract(): T
      requires Ok?
    {
      value
    }
  }

  /** The places where the session talks to the database, or code outside the model runs. */
  datatype Point =
    | ReadJob | ReadBasis | InsertRun | Setup
    | ReadToComplete | ReadReports | WriteReports | ReadScores | WriteScores | WriteCompletion
    | ReadMarker | WriteMarker | WriteNotice
    | ReadToFail | WriteFailure
    | SnapshotCommit | FinalCommit | FailureCommit

  datatype Fault = NoFault | Fails(raised: Raise, poisons: bool)

  /** A commit lands and says so, does not land and raises, or lands and raises all the same. */
  datatype Fate = Lands | Lost(poisons: bool) | LandsUnseen(poisons: bool)

  /** What the world does to one session: the faults, and the clock when it is read. */
  datatype World = World(
    fault: Point -> Fault,
    fate: Point -> Fate,
    startClock: int,
    completeClock: int,
    generateClock: int,
    failClock: int)

  /** The clock never runs backwards. */
  predicate Steady(world: World) {
    world.startClock <= world.completeClock <= world.generateClock <= world.failClock
  }

  /** Nothing goes wrong. */
  ghost predicate Calm(world: World) {
    forall p: Point :: world.fault(p) == NoFault && world.fate(p) == Lands
  }

  /** The session's view of its run: the row, its children, and the marker and notice to write. */
  datatype Work = Work(
    id: int,
    run: Run,
    scores: seq<DayScore>,
    reports: seq<ReviewerReport>,
    marker: Option<int>,
    notice: bool)

  predicate WorkOk(work: Work) {
    && RunOk(work.run)
    && DistinctDays(work.scores) && DistinctReports(work.reports)
    && (work.scores != [] ==> work.run.status == Completed)
  }

  /** The database with the session's changes written. */
  function Written(db: Db, work: Work): Db {
    Db(db.runs[work.id := work.run],
       db.scores[work.id := work.scores],
       db.reports[work.id := work.reports],
       if work.marker.Some? then db.markers[work.run.sessionId := work.marker.value] else db.markers,
       if work.notice then db.notices + {work.run.sessionId} else db.notices)
  }

  function Loaded(db: Db, id: int): Work
    requires id in db.runs
  {
    Work(id, db.runs[id], ScoresOf(db, id), ReportsOf(db, id), None, false)
  }

  /** No other run has the job id. */
  predicate JobFree(db: Db, id: int, jobId: Option<string>) {
    jobId.Some? ==> forall other | other in db.runs && other != id :: db.runs[other].jobId != jobId
  }

  /** The unique constraint on (run, agent, day). */
  predicate AgentDaysUnique(rows: seq<ReviewerReport>) {
    forall i, j | 0 <= i < j < |rows| :: rows[i].agentKey != rows[j].agentKey || rows[i].dayIndex != rows[j].dayIndex
  }

  /** ... which a payload respects when no agent reports twice on a day. */
  predicate AgentDaysClear(payload: seq<ReportEntry>) {
    forall i, j | 0 <= i < j < |payload| && payload[i].ReportEntry? && payload[j].ReportEntry?
                  && payload[i].agentKey.Str? && payload[j].agentKey.Str? ::
      Text.Strip(payload[i].agentKey.s) != Text.Strip(payload[j].agentKey.s)
          || payload[i].dayIndex != payload[j].dayIndex
  }

  lemma AgentDaysAgree(payload: seq<ReportEntry>, urlOk: string -> bool, lower: string -> string,
                       rows: seq<ReviewerReport>)
    requires AllReportsStored(payload, urlOk, lower, rows)
    ensures AgentDaysUnique(rows) <==> AgentDaysClear(payload)
  {
    forall i, j | 0 <= i < j < |rows|
      ensures rows[i].agentKey != rows[j].agentKey || rows[i].dayIndex != rows[j].dayIndex
         <==> (Text.Strip(payload[i].agentKey.s) != Text.Strip(payload[j].agentKey.s)
               || payload[i].dayIndex != payload[j].dayIndex)
    {
      assert ReportStoredAs(payload[i], urlOk, lower, rows[i]) && ReportStoredAs(payload[j], urlOk, lower, rows[j]);
    }
  }

  /** What a caller of `start_run` says about the run. */
  datatype Draft = Draft(
    sessionId: int,
    scenarioVersionId: int,
    labels: seq<string>,
    jobId: Option<string>,
    basis: Option<string>,
    metadata: Metadata)

  predicate NoBlank(text: Option<string>) {
    text.Some? ==> !Text.Blank(text.value)
  }

  predicate DraftAccepted(draft: Draft) {
    NoBlank(draft.jobId) && NoBlank(draft.basis) && forall i | 0 <= i < |draft.labels| :: !Text.Blank(draft.labels[i])
  }

  function StrippedOption(text: Option<string>): Option<string> {
    if text.Some? then Some(Text.Strip(text.value)) else None
  }

  function Started(draft: Draft, now: int): Run {
    Run(draft.sessionId, draft.scenarioVersionId, Running, Whole(now), None, None,
        seq(|draft.labels|, i requires 0 <= i < |draft.labels| => Text.Strip(draft.labels[i])),
        StrippedOption(draft.jobId), StrippedOption(draft.basis), None, None, None, None, None, Some(draft.metadata))
  }

  /** What a completed evaluation hands to `complete_run`. */
  datatype Completion = Completion(
    dayScores: seq<Entry>,
    reports: seq<ReportEntry>,
    overall: Value,
    recommendation: Value,
    confidence: Value,
    raw: Field<RawReport>,
    metadata: Field<Metadata>)

  /** What becomes of a new run in a calm world: completed; refused while it is still running; or
      stuck, because the session is poisoned or shows the run as completed already. */
  datatype Verdict = Completes | Refuses | Sticks

  function ReportsVerdict(payload: seq<ReportEntry>, urlOk: string -> bool, lower: string -> string): Verdict {
    if !ReportsAccepted(payload, urlOk, lower) then Refuses
    else if !AgentDaysClear(payload) then Sticks
    else Completes
  }

  /** ... as far as its reports and day scores go. */
  function RowsVerdict(c: Completion, urlOk: string -> bool, lower: string -> string): Verdict {
    if ReportsVerdict(c.reports, urlOk, lower) != Completes then ReportsVerdict(c.reports, urlOk, lower)
    else if !PayloadAccepted(c.dayScores, true, urlOk) then Refuses
    else Completes
  }

  function VerdictOf(c: Completion, urlOk: string -> bool, lower: string -> string): Verdict {
    if RowsVerdict(c, urlOk, lower) != Completes then RowsVerdict(c, urlOk, lower)
    else if !SummaryAccepted(c, lower) then Sticks
    else Completes
  }

  /** The reports a refused new run is left with: reports are flushed before the day scores are
      looked at. */
  predicate ReportsLeft(c: Completion, urlOk: string -> bool, lower: string -> string, rows: seq<ReviewerReport>) {
    if ReportsVerdict(c.reports, urlOk, lower) == Completes then AllReportsStored(c.reports, urlOk, lower, rows)
    else rows == []
  }

  /** The reports a run had, with or without those of the evaluation. */
  ghost predicate ReportsMayGrow(before: seq<ReviewerReport>, payload: seq<ReportEntry>, urlOk: string -> bool,
                                 lower: string -> string, after: seq<ReviewerReport>) {
    after == before || ReportsAdded(before, payload, urlOk, lower, after)
  }

  predicate SummaryAccepted(c: Completion, lower: string -> string) {
    && CheckedUnit(c.overall).Accepted? && CheckedUnit(c.confidence).Accepted?
    && CheckedRecommendation(c.recommendation, lower).Accepted?
    && !c.raw.Malformed? && !c.metadata.Malformed?
  }

  predicate SummaryStored(run: Run, c: Completion, lower: string -> string, was: Run) {
    && CheckedUnit(c.overall) == Accepted(run.overall)
    && CheckedUnit(c.confidence) == Accepted(run.confidence)
    && CheckedRecommendation(c.recommendation, lower) == Accepted(run.recommendation)
    && run.raw == (if c.raw.Given? then Some(c.raw.value) else None)
    && run.metadata == (if c.metadata.Given? then Some(c.metadata.value) else was.metadata)
    && run.errorCode == None
  }

  /** The row after completion, but for the summary columns. */
  predicate CompletedFrom(was: Run, run: Run, completedAt: int, generatedAt: int) {
    run == was.(status := Completed, completedAt := Some(completedAt), generatedAt := Some(generatedAt),
                overall := run.overall, recommendation := run.recommendation, confidence := run.confidence,
                raw := run.raw, errorCode := run.errorCode, metadata := run.metadata)
  }

  /** Day scores stored as normalized, under days the run did not have. */
  predicate ScoresAdded(before: seq<DayScore>, payload: seq<Entry>, urlOk: string -> bool, after: seq<DayScore>) {
    && |before| <= |after| && after[..|before|] == before && AllStored(payload, urlOk, after[|before|..])
        && DistinctDays(after)
  }

  ghost predicate ReportsAdded(before: seq<ReviewerReport>, payload: seq<ReportEntry>, urlOk: string -> bool,
                               lower: string -> string, after: seq<ReviewerReport>) {
    exists stored :: AllReportsStored(payload, urlOk, lower, stored) && after == before + Fresh(before, stored)
  }

  ghost predicate CompletedWith(before: Work, c: Completion, urlOk: string -> bool, lower: string -> string,
                                world: World, after: Work) {
    && after.id == before.id && after.marker == before.marker && after.notice == before.notice
    && CompletedFrom(before.run, after.run, Whole(world.completeClock), Whole(world.generateClock))
    && SummaryStored(after.run, c, lower, before.run)
    && ScoresAdded(before.scores, c.dayScores, urlOk, after.scores)
    && ReportsAdded(before.reports, c.reports, urlOk, lower, after.reports)
    && DistinctReports(after.reports)
    && Whole(world.completeClock) >= before.run.startedAt && Whole(world.generateClock) >= before.run.startedAt
  }

  /** A run without reports gets exactly those of the payload. */
  lemma ReportsAddedToNone(payload: seq<ReportEntry>, urlOk: string -> bool, lower: string -> string,
                           after: seq<ReviewerReport>)
    requires ReportsAdded([], payload, urlOk, lower, after)
    ensures AllReportsStored(payload, urlOk, lower, after)
  {
    var stored :| AllReportsStored(payload, urlOk, lower, stored) && after == [] + Fresh([], stored);
    assert after == stored;
  }

  function Merged(was: Option<Metadata>, given: Metadata, message: string): Metadata {
    var disabled := if given.disabledDays.Some? || was.None? then given.disabledDays else was.value.disabledDays;
    var rest := (if was.Some? then was.value.rest else map[]) + given.rest;
    Metadata(disabled, if message != "" then rest["error" := Str(message)] else rest)
  }

  /** The row after `fail_run`. */
  function FailedFrom(was: Run, now: int, errorCode: string, given: Metadata, message: string): Run {
    var merged := Merged(was.metadata, given, message);
    was.(status := Failed,
         completedAt := Some(Whole(now)),
         errorCode := if Text.Blank(errorCode) then None else Some(Text.Strip(errorCode)),
         metadata := if merged == Metadata(None, map[]) then None else Some(merged))
  }

  /** The reports of a run together with the new ones. */
  method WithReports(existing: seq<ReviewerReport>, payload: seq<ReportEntry>, urlOk: string -> bool,
                     lower: string -> string)
    returns (r: Checked<seq<ReviewerReport>>)
    requires DistinctReports(existing)
    ensures r.Accepted? ==> ReportsAdded(existing, payload, urlOk, lower, r.value) && DistinctReports(r.value)
    ensures existing == [] ==> (r.Accepted? <==> ReportsVerdict(payload, urlOk, lower) != Refuses)
    ensures existing == [] && r.Accepted? ==>
              (AgentDaysUnique(r.value) <==> ReportsVerdict(payload, urlOk, lower) == Completes)
  {
    var created, stored := NewReviewerReports(existing, payload, urlOk, lower);
    if created.Refused? {
      return Refused(created.reason);
    }
    FreshAreDistinct(existing, stored);
    AgentDaysAgree(payload, urlOk, lower, stored);
    assert existing == [] ==> existing + created.value == stored;
    return Accepted(existing + created.value);
  }

  lemma {:induction false} FreshAreDistinct(existing: seq<ReviewerReport>, rows: seq<ReviewerReport>)
    requires DistinctReports(existing) && DistinctReports(rows) && AllRepeat(existing, rows)
    ensures DistinctReports(existing + Fresh(existing, rows))
  {
    if rows != [] {
      var front, last := rows[..|rows| - 1], rows[|rows| - 1];
      assert AllRepeat(existing, front);
      FreshAreDistinct(existing, front);
      assert Repeats(existing, last);
      if last !in existing {
        assert Fresh(existing, rows) == Fresh(existing, front) + [last];
        assert existing + Fresh(existing, rows) == existing + Fresh(existing, front) + [last];
        forall row | row in existing + Fresh(existing, front) ensures IdentityOf(row) != IdentityOf(last) {
          if row in existing {
          } else {
            assert row in front;
          }
        }
      } else {
        assert Fresh(existing, rows) == Fresh(existing, front);
      }
    }
  }

  class Database {
    var committed: Db

    constructor (db: Db)
      ensures committed == db
    {
      committed := db;
    }
  }

  class Session {
    const database: Database
    const world: World
    var work: Option<Work>
    var poisoned: bool

    constructor (database: Database, world: World)
      ensures this.database == database && this.world == world && work == None && !poisoned
    {
      this.database := database;
      this.world := world;
      work := None;
      poisoned := false;
    }

    /** A read, or anything else that can raise without changing what is read. */
    method Reach(p: Point) returns (r: Attempt<()>)
      modifies `poisoned
      ensures r.Ok? ==> !old(poisoned) && !poisoned
      ensures old(poisoned) ==> poisoned && r == Threw(Error)
      ensures world.fault(p) == NoFault && !old(poisoned) ==> r.Ok?
    {
      if poisoned {
        return Threw(Error);
      }
      match world.fault(p) {
        case NoFault => return Ok(());
        case Fails(raised, poisons) =>
          poisoned := poisons;
          return Threw(raised);
      }
    }

    /** A flush, which also raises when a constraint does not allow what is written. */
    method Flush(p: Point, allowed: bool) returns (r: Attempt<()>)
      modifies `poisoned
      ensures if r.Ok? then allowed && !old(poisoned) && !poisoned else poisoned
      ensures !allowed ==> r == Threw(Error)
      ensures world.fault(p) == NoFault && !old(poisoned) && allowed ==> r.Ok?
    {
      if poisoned {
        return Threw(Error);
      }
      if !allowed {
        poisoned := true;
        return Threw(Error);
      }
      match world.fault(p) {
        case NoFault => return Ok(());
        case Fails(raised, _) =>
          poisoned := true;
          return Threw(raised);
      }
    }

    /** `start_run` without a commit; `id` is the next value of the sequence. */
    method StartRun(draft: Draft, id: int) returns (r: Attempt<()>)
      requires work == None
      modifies `work, `poisoned
      ensures old(poisoned) ==> poisoned
      ensures r.Ok? ==>
                && DraftAccepted(draft) && JobFree(database.committed, id, StrippedOption(draft.jobId))
                && work == Some(Work(id, Started(draft, world.startClock), [], [], None, false)) && !poisoned
      ensures (DraftAccepted(draft) && JobFree(database.committed, id, StrippedOption(draft.jobId))
               && !old(poisoned) && world.fault(InsertRun) == NoFault) ==> r.Ok?
    {
      var times := NormalizeTimes(Running, None, None, None, world.startClock, world.startClock);
      if times.Refused? || !NoBlank(draft.jobId) || !NoBlank(draft.basis) {
        return Threw(Error);
      }
      var labels: seq<string> := [];
      for i := 0 to |draft.labels|
        invariant |labels| == i
        invariant forall j | 0 <= j < i :: labels[j] == Text.Strip(draft.labels[j]) && !Text.Blank(draft.labels[j])
      {
        if Text.Blank(draft.labels[i]) {
          return Threw(Error);
        }
        labels := labels + [Text.Strip(draft.labels[i])];
      }
      var run := Run(draft.sessionId, draft.scenarioVersionId, Running, times.value.startedAt, times.value.completedAt,
                     times.value.generatedAt, labels, StrippedOption(draft.jobId), StrippedOption(draft.basis),
                     None, None, None, None, None, Some(draft.metadata));
      assert labels == Started(draft, world.startClock).labels;
      work := Some(Work(id, run, [], [], None, false));
      r := Flush(InsertRun, JobFree(database.committed, id, run.jobId));
    }

    /** `add_reviewer_reports` */
    method AddReviewerReports(payload: seq<ReportEntry>, urlOk: string -> bool, lower: string -> string)
      returns (r: Attempt<()>)
      requires work.Some? && DistinctReports(work.value.reports)
      modifies `work, `poisoned
      ensures old(poisoned) ==> poisoned
      ensures work.Some? && work.value == old(work).value.(reports := work.value.reports)
      ensures r.Ok? ==> !poisoned && DistinctReports(work.value.reports)
      ensures r.Ok? ==> ReportsAdded(old(work).value.reports, payload, urlOk, lower, work.value.reports)
      ensures r.Threw? ==> poisoned || work == old(work)
      ensures Calm(world) && !old(poisoned) && old(work).value.reports == [] ==>
                match ReportsVerdict(payload, urlOk, lower)
                case Completes => r.Ok?
                case Refuses => r == Threw(Error) && !poisoned
                case Sticks => r == Threw(Error) && poisoned
    {
      var reached := Reach(ReadReports);
      if reached.Threw? { return Threw(reached.raised); }
      var rows := WithReports(work.value.reports, payload, urlOk, lower);
      if rows.Refused? {
        return Threw(Error);
      }
      work := Some(work.value.(reports := rows.value));
      r := Flush(WriteReports, AgentDaysUnique(work.value.reports));
    }

    /** `add_day_scores` */
    method AddDayScores(payload: seq<Entry>, allowEmpty: bool, urlOk: string -> bool) returns (r: Attempt<()>)
      requires work.Some? && DistinctDays(work.value.scores)
      modifies `work, `poisoned
      ensures old(poisoned) ==> poisoned
      ensures work.Some? && work.value == old(work).value.(scores := work.value.scores)
      ensures if r.Ok? then !poisoned && ScoresAdded(old(work).value.scores, payload, urlOk, work.value.scores)
              else poisoned || work == old(work)
      ensures Calm(world) && !old(poisoned) && old(work).value.scores == [] && allowEmpty ==>
                && (r.Ok? <==> PayloadAccepted(payload, true, urlOk))
                && (r.Threw? ==> r.raised == Error && !poisoned)
    {
      var reached := Reach(ReadScores);
      if reached.Threw? { return Threw(reached.raised); }
      var created := NewDayScores(work.value.scores, payload, allowEmpty, urlOk);
      if created.Refused? {
        return Threw(Error);
      }
      ghost var before := work.value.scores;
      work := Some(work.value.(scores := work.value.scores + created.value));
      assert work.value.scores[|before|..] == created.value;
      r := Flush(WriteScores, DistinctDays(work.value.scores));
    }

    /** The reviewer reports and then the day scores of a completion. */
    method AddRows(c: Completion, urlOk: string -> bool, lower: string -> string) returns (r: Attempt<()>)
      requires work.Some? && DistinctReports(work.value.reports) && DistinctDays(work.value.scores)
      modifies `work, `poisoned
      ensures old(poisoned) ==> poisoned
      ensures work.Some? && work.value == old(work).value.(reports := work.value.reports, scores := work.value.scores)
      ensures r.Ok? ==>
                && !poisoned && DistinctReports(work.value.reports)
                && ReportsAdded(old(work).value.reports, c.reports, urlOk, lower, work.value.reports)
                && ScoresAdded(old(work).value.scores, c.dayScores, urlOk, work.value.scores)
      ensures r.Threw? && !poisoned ==>
                && DistinctReports(work.value.reports) && work.value.scores == old(work).value.scores
                && ReportsMayGrow(old(work).value.reports, c.reports, urlOk, lower, work.value.reports)
      ensures Calm(world) && !old(poisoned) && old(work).value.reports == [] && old(work).value.scores == [] ==>
                match RowsVerdict(c, urlOk, lower)
                case Completes => r.Ok?
                case Refuses => r == Threw(Error) && !poisoned && ReportsLeft(c, urlOk, lower, work.value.reports)
                case Sticks => r == Threw(Error) && poisoned
    {
      var reported := AddReviewerReports(c.reports, urlOk, lower);
      if reported.Threw? { return Threw(reported.raised); }
      if old(work).value.reports == [] {
        ReportsAddedToNone(c.reports, urlOk, lower, work.value.reports);
      }
      r := AddDayScores(c.dayScores, true, urlOk);
    }

    /** A new run in a calm world. */
    ghost predicate CanComplete(was: Option<Work>, wasPoisoned: bool, id: int) {
      && Calm(world) && !wasPoisoned && was.Some? && was.value.id == id
      && was.value.run.status == Running && was.value.scores == [] && was.value.reports == []
      && was.value.run.startedAt <= Whole(world.completeClock) && was.value.run.startedAt <= Whole(world.generateClock)
    }

    /** `complete_run` without a commit. The columns are assigned one by one, and a value that is
        refused half way leaves the row marked completed in the session. */
    method CompleteRun(id: int, c: Completion, urlOk: string -> bool, lower: string -> string) returns (r: Attempt<()>)
      requires work.Some? ==> DistinctReports(work.value.reports) && DistinctDays(work.value.scores)
      modifies `work, `poisoned
      ensures old(poisoned) ==> poisoned
      ensures work.Some? == old(work).Some? && (work.Some? ==> work.value.id == old(work).value.id)
      ensures r.Ok? ==>
                && !poisoned && work.Some? && old(work).value.id == id && old(work).value.run.status == Running
                && CompletedWith(old(work).value, c, urlOk, lower, world, work.value)
      ensures r.Threw? && work.Some? && !poisoned && work.value.run.status != Completed ==>
                && work.value.run == old(work).value.run && DistinctReports(work.value.reports)
                && ReportsMayGrow(old(work).value.reports, c.reports, urlOk, lower, work.value.reports)
                && work.value.marker == old(work).value.marker && work.value.notice == old(work).value.notice
                && (work.value.scores == old(work).value.scores
                    || Whole(world.completeClock) < work.value.run.startedAt
                        || Whole(world.generateClock) < work.value.run.startedAt)
      ensures CanComplete(old(work), old(poisoned), id) ==>
                match VerdictOf(c, urlOk, lower)
                case Completes => r.Ok?
                case Refuses => r == Threw(Error) && !poisoned && work.value.run.status == Running
                                && ReportsLeft(c, urlOk, lower, work.value.reports)
                case Sticks => r == Threw(Error) && (poisoned || work.value.run.status == Completed)
    {
      var reached := Reach(ReadToComplete);
      if reached.Threw? { return Threw(reached.raised); }
      if work.None? || work.value.id != id || Completed !in Allowed(work.value.run.status) {
        return Threw(Error);
      }
      ghost var before := work.value;
      var added := AddRows(c, urlOk, lower);
      if added.Threw? { return Threw(added.raised); }
      var completedAt, generatedAt := Whole(world.completeClock), Whole(world.generateClock);
      if completedAt < work.value.run.startedAt || generatedAt < work.value.run.startedAt {
        return Threw(Error);
      }
      work := Some(work.value.(run := work.value.run.(status := Completed)));
      work := Some(work.value.(run := work.value.run.(completedAt := Some(completedAt))));
      work := Some(work.value.(run := work.value.run.(generatedAt := Some(generatedAt))));
      var summarised := SetSummary(c, lower);
      if summarised.Threw? { return Threw(summarised.raised); }
      assert CompletedWith(before, c, urlOk, lower, world, work.value);
      r := Flush(WriteCompletion, NotBefore(work.value.run.completedAt, work.value.run.startedAt));
    }

    /** The summary columns of `complete_run`, in the order they are assigned. */
    method SetSummary(c: Completion, lower: string -> string) returns (r: Attempt<()>)
      requires work.Some?
      modifies `work
      ensures work.Some?
      ensures var was, now := old(work).value, work.value;
              && now == was.(run := now.run)
              && now.run == was.run.(overall := now.run.overall, recommendation := now.run.recommendation,
                                     confidence := now.run.confidence, raw := now.run.raw,
                                     errorCode := now.run.errorCode, metadata := now.run.metadata)
      ensures if r.Ok? then SummaryAccepted(c, lower) else r == Threw(Error) && !SummaryAccepted(c, lower)
      ensures r.Ok? ==> SummaryStored(work.value.run, c, lower, old(work).value.run)
    {
      var overall := CheckedUnit(c.overall);
      if overall.Refused? { return Threw(Error); }
      work := Some(work.value.(run := work.value.run.(overall := overall.value)));
      var recommendation := CheckedRecommendation(c.recommendation, lower);
      if recommendation.Refused? { return Threw(Error); }
      work := Some(work.value.(run := work.value.run.(recommendation := recommendation.value)));
      var confidence := CheckedUnit(c.confidence);
      if confidence.Refused? { return Threw(Error); }
      work := Some(work.value.(run := work.value.run.(confidence := confidence.value)));
      if c.raw.Malformed? { return Threw(Error); }
      work := Some(work.value.(run := work.value.run.(raw := if c.raw.Given? then Some(c.raw.value) else None)));
      work := Some(work.value.(run := work.value.run.(errorCode := None)));
      if c.metadata.Malformed? { return Threw(Error); }
      if c.metadata.Given? {
        work := Some(work.value.(run := work.value.run.(metadata := Some(c.metadata.value))));
      }
      return Ok(());
    }

    /** `fail_run` without a commit. */
    method FailRun(id: int, errorCode: string, metadata: Metadata, message: string) returns (r: Attempt<()>)
      modifies `work, `poisoned
      ensures old(poisoned) ==> poisoned
      ensures r.Ok? ==>
                && !poisoned && old(work).Some? && old(work).value.id == id && UnderWay(old(work).value.run.status)
                && Whole(world.failClock) >= old(work).value.run.startedAt
                && work == Some(old(work).value.(run := FailedFrom(old(work).value.run, world.failClock, errorCode,
                                                                   metadata, message)))
      ensures (!old(poisoned) && old(work).Some? && old(work).value.id == id && UnderWay(old(work).value.run.status)
               && Whole(world.failClock) >= old(work).value.run.startedAt
               && world.fault(ReadToFail) == NoFault && world.fault(WriteFailure) == NoFault) ==> r.Ok?
    {
      var reached := Reach(ReadToFail);
      if reached.Threw? { return Threw(reached.raised); }
      if work.None? || work.value.id != id || Failed !in Allowed(work.value.run.status) {
        return Threw(Error);
      }
      var completedAt := Whole(world.failClock);
      if completedAt < work.value.run.startedAt {
        return Threw(Error);
      }
      var merged := Merged(work.value.run.metadata, metadata, message);
      work := Some(work.value.(run := work.value.run.(status := Failed)));
      work := Some(work.value.(run := work.value.run.(completedAt := Some(completedAt))));
      var code := if Text.Blank(errorCode) then None else Some(Text.Strip(errorCode));
      work := Some(work.value.(run := work.value.run.(errorCode := code)));
      var stored := if merged == Metadata(None, map[]) then None else Some(merged);
      work := Some(work.value.(run := work.value.run.(metadata := stored)));
      r := Flush(WriteFailure, NotBefore(work.value.run.completedAt, work.value.run.startedAt));
    }

    /** `upsert_marker` and the notification, both without a commit. */
    method MarkReady() returns (r: Attempt<()>)
      requires work.Some?
      modifies `work, `poisoned
      ensures old(poisoned) ==> poisoned
      ensures work.Some? && work.value == old(work).value.(marker := work.value.marker, notice := work.value.notice)
      ensures r.Ok? ==> !poisoned && work.value.marker == old(work).value.run.generatedAt && work.value.notice
      ensures Calm(world) && !old(poisoned) ==> r.Ok?
    {
      var read := Reach(ReadMarker);
      if read.Threw? { return Threw(read.raised); }
      work := Some(work.value.(marker := work.value.run.generatedAt));
      var marked := Flush(WriteMarker, true);
      if marked.Threw? { return Threw(marked.raised); }
      work := Some(work.value.(notice := true));
      r := Flush(WriteNotice, true);
    }

    /** `db.commit()`: everything the session holds becomes visible at once, or nothing does. A
        commit that is lost leaves the session as it was loaded, or poisoned. */
    method Commit(p: Point) returns (r: Attempt<()>)
      requires work.Some?
      modifies this`work, this`poisoned, database
      ensures database.committed == old(database.committed)
                || database.committed == Written(old(database.committed), old(work).value)
      ensures database.committed != old(database.committed) ==>
                !old(poisoned) && JobFree(old(database.committed), old(work).value.id, old(work).value.run.jobId)
      ensures r.Ok? ==> database.committed == Written(old(database.committed), old(work).value)
                        && !old(poisoned) && JobFree(old(database.committed), old(work).value.id,
                                                     old(work).value.run.jobId)
      ensures r.Threw? && !poisoned && work.Some? ==>
                || work == old(work)
                || (database.committed == old(database.committed) && work.value.id == old(work).value.id
                    && work.value.id in database.committed.runs
                        && work.value == Loaded(database.committed, work.value.id))
      ensures r.Threw? && database.committed != old(database.committed) ==> work == old(work)
      ensures (world.fate(p) == Lands && !old(poisoned)
               && JobFree(old(database.committed), old(work).value.id, old(work).value.run.jobId)) ==> r.Ok?
    {
      var id := work.value.id;
      if poisoned || !JobFree(database.committed, id, work.value.run.jobId) {
        poisoned := true;
        return Threw(Error);
      }
      match world.fate(p) {
        case Lands =>
          database.committed := Written(database.committed, work.value);
          return Ok(());
        case LandsUnseen(poisons) =>
          database.committed := Written(database.committed, work.value);
          poisoned := poisons;
          return Threw(Error);
        case Lost(poisons) =>
          poisoned := poisons;
          work := if id in database.committed.runs then Some(Loaded(database.committed, id)) else None;
          return Threw(Error);
      }
    }
  }
}
