/**
 The evaluation-run table: what a run row holds, what creating, completing and failing a run
 make of it, and what the report API reads off the table.
 */
module RunTable {
  import opened Values
  import opened DayScores
  import opened ReviewerReports
  import opened Sets
  import Scoring
  import Text

  datatype Status = Pending | Running | Completed | Failed

  /** `ALLOWED_TRANSITIONS` */
  function Allowed(from: Status): set<Status> {
    match from
    case Pending => {Running, Failed}
    case Running => {Completed, Failed}
    case Completed => {}
    case Failed => {}
  }

  predicate Terminal(status: Status) {
    status == Completed || status == Failed
  }

  /** The part of a stored report the composer reads back. */
  datatype RawDay = RawDay(dayIndex: Value, status: Value, reason: Value) | NotADay

  datatype RawReport = RawReport(overall: Value, recommendation: Value, confidence: Value,
                                 dayScores: Option<seq<RawDay>>)

  /** Run metadata: the list of disabled days, when there is one, and everything else. */
  datatype Metadata = Metadata(disabledDays: Option<seq<Value>>, rest: map<string, Value>)

  /** Times are microseconds. `labels` are the eight required text columns. */
  datatype Run = Run(
    sessionId: int,
    scenarioVersionId: int,
    status: Status,
    startedAt: int,
    completedAt: Option<int>,
    generatedAt: Option<int>,
    labels: seq<string>,
    jobId: Option<string>,
    basis: Option<string>,
    overall: Option<real>,
    recommendation: Option<Scoring.Recommendation>,
    confidence: Option<real>,
    raw: Option<RawReport>,
    errorCode: Option<string>,
    metadata: Option<Metadata>)

  datatype Db = Db(
    runs: map<int, Run>,
    scores: map<int, seq<DayScore>>,
    reports: map<int, seq<ReviewerReport>>,
    markers: map<int, int>,
    notices: set<int>)

  function ScoresOf(db: Db, id: int): seq<DayScore> {
    if id in db.scores then db.scores[id] else []
  }

  function ReportsOf(db: Db, id: int): seq<ReviewerReport> {
    if id in db.reports then db.reports[id] else []
  }

  // What is true of every row.

  predicate UnitOrNone(score: Option<real>) {
    score.Some? ==> 0.0 <= score.value <= 1.0
  }

  predicate NotBefore(time: Option<int>, start: int) {
    time.Some? ==> time.value >= start
  }

  predicate RunOk(run: Run) {
    && UnitOrNone(run.overall) && UnitOrNone(run.confidence)
    && NotBefore(run.completedAt, run.startedAt) && NotBefore(run.generatedAt, run.startedAt)
    && (run.status == Completed ==> run.completedAt.Some? && run.generatedAt.Some?)
    && (run.status == Pending || run.status == Running ==> run.completedAt.None? && run.generatedAt.None?)
  }

  /** The unique index on `job_id`. */
  predicate JobsUnique(db: Db) {
    forall i, j | i in db.runs && j in db.runs && i != j :: db.runs[i].jobId.None?
        || db.runs[i].jobId != db.runs[j].jobId
  }

  predicate ChildrenOk(db: Db, id: int) {
    && DistinctDays(ScoresOf(db, id)) && DistinctReports(ReportsOf(db, id))
    && (ScoresOf(db, id) != [] ==> id in db.runs && db.runs[id].status == Completed)
  }

  predicate DbOk(db: Db) {
    && (forall id | id in db.runs :: RunOk(db.runs[id]))
    && (forall id | id in db.runs.Keys + db.scores.Keys + db.reports.Keys :: ChildrenOk(db, id))
    && JobsUnique(db)
  }

  // Creating a run.

  /** Clock readings are cut to whole seconds. */
  function Whole(now: int): int {
    now - now % 1000000
  }

  lemma WholeKeepsOrder(earlier: int, later: int)
    requires earlier <= later
    ensures Whole(earlier) <= Whole(later)
  {
  }

  predicate UnderWay(status: Status) {
    status == Pending || status == Running
  }

  datatype Times = Times(startedAt: int, completedAt: Option<int>, generatedAt: Option<int>)

  function Or(time: Option<int>, fallback: int): int {
    if time.Some? then time.value else fallback
  }

  /** The times a new run gets, or that they are refused. */
  predicate TimesGiven(status: Status, startedAt: Option<int>, completedAt: Option<int>, generatedAt: Option<int>,
                       now: int, later: int, r: Checked<Times>) {
    var started := Or(startedAt, Whole(now));
    var completed := if status == Completed then Some(Or(completedAt, Whole(later))) else completedAt;
    var generated := if status == Completed && generatedAt.None? then completed else generatedAt;
    if (UnderWay(status) && (completedAt.Some? || generatedAt.Some?)) || !NotBefore(completed, started)
        || !NotBefore(generated, started)
    then r.Refused?
    else r == Accepted(Times(started, completed, generated))
  }

  /** `normalize_run_time_fields`; `now` and `later` are the clock readings. */
  method NormalizeTimes(status: Status, startedAt: Option<int>, completedAt: Option<int>, generatedAt: Option<int>,
                        now: int, later: int) returns (r: Checked<Times>)
    ensures TimesGiven(status, startedAt, completedAt, generatedAt, now, later, r)
  {
    var started := if startedAt.Some? then startedAt.value else Whole(now);
    var completed := completedAt;
    if UnderWay(status) && completed.Some? {
      return Refused(NotAllowed);
    }
    if status == Completed && completed.None? {
      completed := Some(Whole(later));
    }
    if completed.Some? && completed.value < started {
      return Refused(TooEarly);
    }
    var generated := generatedAt;
    if UnderWay(status) && generated.Some? {
      return Refused(NotAllowed);
    }
    if status == Completed && generated.None? && completed.Some? {
      generated := completed;
    }
    if generated.Some? && generated.value < started {
      return Refused(TooEarly);
    }
    return Accepted(Times(started, completed, generated));
  }

  // Recommendations.

  function RecommendationName(r: Scoring.Recommendation): string {
    match r
    case StrongHire => "strong_hire"
    case Hire => "hire"
    case LeanHire => "lean_hire"
    case NoHire => "no_hire"
  }

  function SignalName(r: Scoring.Recommendation): string {
    match r
    case StrongHire => "strong_signal"
    case Hire => "positive_signal"
    case LeanHire => "mixed_signal"
    case NoHire => "limited_signal"
  }

  /** The recommendation a lower-case name stands for, in either vocabulary. */
  function Parsed(name: string): Option<Scoring.Recommendation> {
    if name == "strong_hire" || name == "strong_signal" then Some(Scoring.StrongHire)
    else if name == "hire" || name == "positive_signal" then Some(Scoring.Hire)
    else if name == "lean_hire" || name == "mixed_signal" then Some(Scoring.LeanHire)
    else if name == "no_hire" || name == "limited_signal" then Some(Scoring.NoHire)
    else None
  }

  lemma ParsedNames(r: Scoring.Recommendation)
    ensures Parsed(RecommendationName(r)) == Some(r) && Parsed(SignalName(r)) == Some(r)
    ensures Text.Trimmed(RecommendationName(r)) && RecommendationName(r) != ""
  {
    assert "strong_hire"[0] == 's' && "hire"[0] == 'h' && "lean_hire"[0] == 'l' && "no_hire"[0] == 'n';
    assert "positive_signal"[0] == 'p' && "mixed_signal"[0] == 'm' && "limited_signal"[1] == 'i'
        && "lean_hire"[1] == 'e';
    assert |"strong_hire"| == 11 && |"strong_signal"| == 13;
    assert "strong_hire"[10] == 'e' && "hire"[3] == 'e' && "lean_hire"[8] == 'e' && "no_hire"[6] == 'e';
  }

  /** `coerce_recommendation` */
  function CheckedRecommendation(v: Value, lower: string -> string): Checked<Option<Scoring.Recommendation>> {
    if v.Nil? then Accepted(None)
    else if !v.Str? || Text.Blank(v.s) then Refused(NotText)
    else
      var r := Parsed(lower(Text.Strip(v.s)));
      if r.Some? then Accepted(r) else Refused(UnknownKind)
  }

  // What the report API reads.

  /** `ORDER BY started_at DESC, id DESC` puts i at or before j. */
  predicate AtOrAfter(runs: map<int, Run>, i: int, j: int)
    requires i in runs && j in runs
  {
    runs[i].startedAt > runs[j].startedAt || (runs[i].startedAt == runs[j].startedAt && i >= j)
  }

  predicate IsLatest(runs: map<int, Run>, among: set<int>, id: int) {
    id in among && among <= runs.Keys && forall other | other in among :: AtOrAfter(runs, id, other)
  }

  lemma LatestExists(runs: map<int, Run>, among: set<int>)
    requires among != {} && among <= runs.Keys
    ensures exists id :: IsLatest(runs, among, id)
    decreases among
  {
    var some := AnyOf(among);
    if among == {some} {
      assert IsLatest(runs, among, some);
    } else {
      assert among - {some} != {} by {
        assert among == among - {some} + {some};
      }
      LatestExists(runs, among - {some});
      var best :| IsLatest(runs, among - {some}, best);
      assert forall other | other in among :: other == some || other in among - {some};
      assert IsLatest(runs, among, if AtOrAfter(runs, best, some) then best else some);
    }
  }

  function Latest(runs: map<int, Run>, among: set<int>): (r: Option<int>)
    requires among <= runs.Keys
    ensures r.None? <==> among == {}
    ensures r.Some? ==> IsLatest(runs, among, r.value)
  {
    if among == {} then None
    else
      LatestExists(runs, among);
      var id :| id in among && IsLatest(runs, among, id);
      Some(id)
  }

  function RunsOfSession(db: Db, sessionId: int): set<int> {
    set id | id in db.runs && db.runs[id].sessionId == sessionId
  }

  function CompletedRuns(db: Db, sessionId: int): set<int> {
    set id | id in db.runs && db.runs[id].sessionId == sessionId && db.runs[id].status == Completed
  }

  datatype ReportStatus = Ready(runId: int) | InProgress | LastFailed(errorCode: string) | NotStarted

  function ErrorCode(run: Run): string {
    if run.errorCode.Some? && run.errorCode.value != "" then run.errorCode.value else "evaluation_failed"
  }

  /** `fetch_winoe_report`, with the authorisation left out. */
  function FetchStatus(db: Db, sessionId: int, activeJob: bool): ReportStatus {
    var success := Latest(db.runs, CompletedRuns(db, sessionId));
    if success.Some? then Ready(success.value)
    else
      var latest := Latest(db.runs, RunsOfSession(db, sessionId));
      if latest.Some? then
        match db.runs[latest.value].status
        case Completed => Ready(latest.value)
        case Failed => LastFailed(ErrorCode(db.runs[latest.value]))
        case _ => InProgress
      else if activeJob then InProgress else NotStarted
  }

  /** Ready exactly when some run of the session has completed, and then it shows the latest. */
  lemma ReadyMeansCompleted(db: Db, sessionId: int, activeJob: bool)
    ensures FetchStatus(db, sessionId, activeJob).Ready? <==>
              exists id | id in db.runs :: db.runs[id].sessionId == sessionId && db.runs[id].status == Completed
    ensures FetchStatus(db, sessionId, activeJob).Ready? ==>
              IsLatest(db.runs, CompletedRuns(db, sessionId), FetchStatus(db, sessionId, activeJob).runId)
  {
    if id :| id in db.runs && db.runs[id].sessionId == sessionId && db.runs[id].status == Completed {
      assert id in CompletedRuns(db, sessionId);
    } else {
      forall id ensures id !in CompletedRuns(db, sessionId) {
      }
      assert CompletedRuns(db, sessionId) == {};
      var latest := Latest(db.runs, RunsOfSession(db, sessionId));
      assert latest.Some? ==> latest.value in RunsOfSession(db, sessionId);
    }
  }

  predicate HasRun(db: Db, sessionId: int, id: int) {
    id in db.runs && db.runs[id].sessionId == sessionId
  }

  /** Without a completed run the status is that of the latest run: failed with its code, or in progress;
      and without any run it depends on whether a job is waiting. */
  lemma StatusMeans(db: Db, sessionId: int, activeJob: bool)
    requires forall id | HasRun(db, sessionId, id) :: db.runs[id].status != Completed
    ensures var shown := FetchStatus(db, sessionId, activeJob);
            if forall id :: !HasRun(db, sessionId, id)
            then shown == if activeJob then InProgress else NotStarted
            else exists id | HasRun(db, sessionId, id) ::
                   && (forall other | HasRun(db, sessionId, other) && other != id ::
                         || db.runs[other].startedAt < db.runs[id].startedAt
                         || (db.runs[other].startedAt == db.runs[id].startedAt && other < id))
                   && if db.runs[id].status == Failed
                      then shown.LastFailed?
                        && if db.runs[id].errorCode.Some? && db.runs[id].errorCode.value != ""
                           then shown.errorCode == db.runs[id].errorCode.value
                           else shown.errorCode == "evaluation_failed"
                      else shown == InProgress
  {
    forall id ensures id !in CompletedRuns(db, sessionId) {
      assert HasRun(db, sessionId, id) ==> db.runs[id].status != Completed;
    }
    assert CompletedRuns(db, sessionId) == {};
    var runs := RunsOfSession(db, sessionId);
    if exists id :: HasRun(db, sessionId, id) {
      var some :| HasRun(db, sessionId, some);
      assert some in runs;
      var id := Latest(db.runs, runs).value;
      assert HasRun(db, sessionId, id);
      forall other | HasRun(db, sessionId, other) && other != id
        ensures db.runs[other].startedAt < db.runs[id].startedAt
          || (db.runs[other].startedAt == db.runs[id].startedAt && other < id)
      {
        assert other in runs;
      }
    } else {
      forall id ensures id !in runs {
        assert !HasRun(db, sessionId, id);
      }
      assert runs == {};
    }
  }

  /** No run goes away, none changes its session, and a finished one does not change at all. */
  predicate Evolves(before: Db, after: Db) {
    forall id | id in before.runs ::
      && id in after.runs
      && after.runs[id].sessionId == before.runs[id].sessionId
      && (Terminal(before.runs[id].status) ==> after.runs[id] == before.runs[id])
  }

  /** Once a session's report is ready it stays ready, and the run it shows never gets older. */
  lemma ReadyStaysReady(before: Db, after: Db, sessionId: int, activeBefore: bool, activeAfter: bool)
    requires Evolves(before, after) && FetchStatus(before, sessionId, activeBefore).Ready?
    ensures var was, now := FetchStatus(before, sessionId, activeBefore), FetchStatus(after, sessionId, activeAfter);
            now.Ready? && was.runId in after.runs && now.runId in after.runs
                && AtOrAfter(after.runs, now.runId, was.runId)
  {
    ReadyMeansCompleted(before, sessionId, activeBefore);
    var was := FetchStatus(before, sessionId, activeBefore).runId;
    assert was in CompletedRuns(before, sessionId);
    assert was in CompletedRuns(after, sessionId);
    ReadyMeansCompleted(after, sessionId, activeAfter);
  }
}
