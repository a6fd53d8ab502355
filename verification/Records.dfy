/**
 What the rows say that a delivery commits, column by column and in terms of the job, its context and
 the clock.
 */
module Records {
  import opened Values
  import opened EvidencePointers
  import opened DayScores
  import opened ReviewerReports
  import opened RunTable
  import opened RunSession
  import opened Pipeline
  import opened RunHistory
  import Scoring
  import Text

  /** The time is the clock reading without its fraction of a second. */
  predicate IsSecondOf(time: int, clock: int) {
    time % 1000000 == 0 && time <= clock < time + 1000000
  }

  function StripIfAny(text: Option<string>): Option<string> {
    if text.Some? && !Text.Blank(text.value) then Some(Text.Strip(text.value)) else None
  }

  // A new run.

  predicate NewRow(run: Run, d: Delivery) {
    && run.sessionId == d.sessionId && run.scenarioVersionId == d.context.scenarioVersionId
    && IsSecondOf(run.startedAt, d.world.startClock)
    && run.jobId == StripIfAny(d.job.jobId)
    && run.basis == Some(Text.Strip(if d.context.snapshotError.Some? then d.context.snapshotError.value.basis
                                    else d.context.basis))
    && |run.labels| == |d.context.labels|
    && forall i | 0 <= i < |run.labels| :: run.labels[i] == Text.Strip(d.context.labels[i])
  }

  lemma StartedMeans(d: Delivery)
    requires NoBlank(d.job.jobId)
    ensures NewRow(NewRun(d).run, d)
  {
    var run := NewRun(d).run;
    assert run == Started(DraftOf(d), d.world.startClock);
    assert run.startedAt == d.world.startClock - d.world.startClock % 1000000;
  }

  lemma SameStartSameRow(run: Run, d: Delivery)
    requires NewRow(NewRun(d).run, d) && OfDelivery(run, d) && run.jobId == NewRun(d).run.jobId
    ensures NewRow(run, d)
  {
  }

  /** A run that was not there before carries the session, the job and the context of the delivery. */
  lemma NewRunRecorded(before: Db, begun: Work, after: Db, d: Delivery)
    requires Concludes(before, begun, after, d) && begun.id !in before.runs
    ensures begun.id in after.runs && NewRow(after.runs[begun.id], d)
  {
    RunOfDelivery(before, begun, after, d);
    StartedMeans(d);
    SameStartSameRow(after.runs[begun.id], d);
  }

  // A failure.

  function FailureCode(d: Delivery): string {
    if d.context.snapshotError.Some? then d.context.snapshotError.value.errorCode
    else if d.context.evaluation.Raises? then d.context.evaluation.errorCode
    else "evaluation_failed"
  }

  function FailureMessage(d: Delivery): string {
    if d.context.snapshotError.Some? then d.context.snapshotError.value.message else "evaluation_run_failed"
  }

  function FailureMetadata(d: Delivery): Metadata {
    if d.context.snapshotError.Some? then d.context.snapshotError.value.metadata else d.context.finalMetadata
  }

  function EntryAt(metadata: Option<Metadata>, key: string): Option<Value> {
    if metadata.Some? && key in metadata.value.rest then Some(metadata.value.rest[key]) else None
  }

  function DisabledIn(metadata: Option<Metadata>): Option<seq<Value>> {
    if metadata.Some? then metadata.value.disabledDays else None
  }

  /** The message wins over the given metadata, and those over what the run had. */
  ghost predicate MetadataMerged(was: Option<Metadata>, given: Metadata, message: string, now: Option<Metadata>) {
    && DisabledIn(now) == (if given.disabledDays.Some? then given.disabledDays else DisabledIn(was))
    && forall key ::
         EntryAt(now, key) ==
           if key == "error" && message != "" then Some(Str(message))
           else if key in given.rest then Some(given.rest[key])
           else EntryAt(was, key)
  }

  ghost predicate FailedRow(was: Run, run: Run, d: Delivery) {
    && run.status == Failed && run.completedAt.Some? && IsSecondOf(run.completedAt.value, d.world.failClock)
    && run.errorCode == StripIfAny(Some(FailureCode(d)))
    && MetadataMerged(was.metadata, FailureMetadata(d), FailureMessage(d), run.metadata)
    && run == was.(status := Failed, completedAt := run.completedAt, errorCode := run.errorCode,
                   metadata := run.metadata)
  }

  lemma MergedMeans(was: Option<Metadata>, given: Metadata, message: string, now: Option<Metadata>)
    requires var merged := Merged(was, given, message);
             now == if merged == Metadata(None, map[]) then None else Some(merged)
    ensures MetadataMerged(was, given, message, now)
  {
  }

  lemma FailedFromMeans(was: Run, d: Delivery)
    ensures var f := FailureOf(d); FailedRow(was, FailedFrom(was, f.now, f.errorCode, f.metadata, f.message), d)
  {
    var f := FailureOf(d);
    var run := FailedFrom(was, f.now, f.errorCode, f.metadata, f.message);
    MergedMeans(was.metadata, f.metadata, f.message, run.metadata);
  }

  /** A run answered as failed carries the failure, and nothing else of it has changed. */
  lemma FailureRecorded(before: Db, begun: Work, after: Db, d: Delivery, id: int, code: string)
    requires Answered(before, begun, after, d, FailedResponse(id, code))
    ensures code == FailureCode(d) && begun.id == id && id in after.runs && FailedRow(begun.run, after.runs[id], d)
    ensures ScoresOf(after, id) == []
  {
    var reports :| MayKeep(begun, d, reports)
                   && Commits(before, FailedWork(begun.(reports := reports), FailureOf(d)), after);
    FailedFromMeans(begun.run, d);
  }

  // A completion.

  predicate IsScore(v: Value, score: Option<real>) {
    match v
    case Nil => score == None
    case Int(i) => score == Some(i as real)
    case Real(r) => score == Some(r)
    case _ => false
  }

  /** A recommendation stands under its own name or the name of its signal. */
  predicate Names(name: string, r: Scoring.Recommendation) {
    match r
    case StrongHire => name == "strong_hire" || name == "strong_signal"
    case Hire => name == "hire" || name == "positive_signal"
    case LeanHire => name == "lean_hire" || name == "mixed_signal"
    case NoHire => name == "no_hire" || name == "limited_signal"
  }

  predicate IsRecommendation(v: Value, lower: string -> string, r: Option<Scoring.Recommendation>) {
    if v.Nil? then r == None else v.Str? && r.Some? && Names(lower(Text.Strip(v.s)), r.value)
  }

  predicate CompletedRow(was: Run, run: Run, e: Evaluation, d: Delivery)
    requires e.Evaluated?
  {
    && run.status == Completed
    && run.completedAt.Some? && IsSecondOf(run.completedAt.value, d.world.completeClock)
    && run.generatedAt.Some? && IsSecondOf(run.generatedAt.value, d.world.generateClock)
    && IsScore(e.overall, run.overall) && IsScore(e.confidence, run.confidence)
    && IsRecommendation(e.recommendation, d.lower, run.recommendation)
    && run.raw == (if e.raw.Given? then Some(e.raw.value) else None)
    && run.errorCode == None && run.metadata == Some(d.context.finalMetadata)
    && run.sessionId == was.sessionId && run.startedAt == was.startedAt && run.jobId == was.jobId
    && run.basis == was.basis && run.labels == was.labels && run.scenarioVersionId == was.scenarioVersionId
  }

  lemma UnitMeans(v: Value, score: Option<real>)
    requires CheckedUnit(v) == Accepted(score)
    ensures IsScore(v, score)
  {
  }

  lemma RecommendationMeans(v: Value, lower: string -> string, r: Option<Scoring.Recommendation>)
    requires CheckedRecommendation(v, lower) == Accepted(r)
    ensures IsRecommendation(v, lower, r)
  {
  }

  lemma CompletedRowOf(was: Run, run: Run, e: Evaluation, d: Delivery)
    requires EvaluationUsable(e) && SummaryStored(run, CompletionOf(e, d.context.finalMetadata), d.lower, was)
    requires CompletedFrom(was, run, Whole(d.world.completeClock), Whole(d.world.generateClock))
    ensures CompletedRow(was, run, e, d)
  {
    UnitMeans(e.overall, run.overall);
    UnitMeans(e.confidence, run.confidence);
    RecommendationMeans(e.recommendation, d.lower, run.recommendation);
  }

  /** A run answered as completed carries the evaluation's summary and the delivery's metadata. */
  lemma CompletionRecorded(before: Db, begun: Work, after: Db, d: Delivery, id: int)
    requires Answered(before, begun, after, d, CompletedResponse(id))
    ensures d.context.evaluation.Evaluated? && begun.id == id && id in after.runs
    ensures CompletedRow(begun.run, after.runs[id], d.context.evaluation, d)
  {
    var e := d.context.evaluation;
    var c := CompletionOf(e, d.context.finalMetadata);
    var work :| Commits(before, work, after) && work.id == begun.id
                && CompletedWith(begun, c, d.urlOk, d.lower, d.world, work.(marker := None, notice := false));
    assert after.runs[id] == work.run;
    CompletedRowOf(begun.run, work.run, e, d);
  }

  /** The row of a day's result: its day, score and rubric, and its evidence normalized. */
  predicate ScoreRow(result: DayResult, urlOk: string -> bool, row: DayScore) {
    && result.dayIndex == Int(row.dayIndex) && 1 <= row.dayIndex <= 5
    && IsScore(result.score, Some(row.score)) && 0.0 <= row.score <= 1.0 && result.rubric == Given(row.rubric)
    && result.evidence.Items? && Normalizes(result.evidence.items, urlOk, Accepted(row.evidence))
  }

  lemma EntryMeans(result: DayResult, urlOk: string -> bool, row: DayScore)
    requires ResultAccepted(result) && StoredAs(EntryFor(result), urlOk, row)
    ensures ScoreRow(result, urlOk, row)
  {
  }

  /** ... and its day scores are those of the results, one by one. */
  lemma ScoresRecorded(before: Db, begun: Work, after: Db, d: Delivery, id: int)
    requires DbOk(before) && Answered(before, begun, after, d, CompletedResponse(id))
    ensures var rows := ScoresOf(after, id);
            && |rows| == |d.context.evaluation.days|
            && forall i | 0 <= i < |rows| :: ScoreRow(d.context.evaluation.days[i], d.urlOk, rows[i])
  {
    var e := d.context.evaluation;
    var c := CompletionOf(e, d.context.finalMetadata);
    var work :| Commits(before, work, after) && work.id == begun.id
                && CompletedWith(begun, c, d.urlOk, d.lower, d.world, work.(marker := None, notice := false));
    assert begun.scores == [] by {
      if begun.id in before.runs {
        assert ChildrenOk(before, begun.id);
      }
    }
    assert work.scores[|begun.scores|..] == work.scores;
    assert ScoresOf(after, id) == work.scores;
    forall i | 0 <= i < |work.scores| ensures ScoreRow(e.days[i], d.urlOk, work.scores[i]) {
      assert c.dayScores[i] == EntryFor(e.days[i]);
      EntryMeans(e.days[i], d.urlOk, work.scores[i]);
    }
  }
}
