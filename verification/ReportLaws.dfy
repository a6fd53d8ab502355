/**
 What a composed report says, read against the rows it is composed of: which row each part comes from
 and where each field of it goes.
 */
module ReportLaws {
  import opened Values
  import opened EvidencePointers
  import opened DayScores
  import opened ReviewerReports
  import opened RunTable
  import opened Sorting
  import opened Report
  import opened ReportRoundTrip
  import opened EvaluatorEvidence
  import opened DeterministicEvaluator
  import Scoring
  import Text

  // Reviewer reports.

  /** Every column of the row under its own heading, the risks as concerns, and an old agent key under
      its present name. */
  predicate RowShown(row: ReviewerReport, shown: ShownReviewer) {
    && shown.dayIndex == row.dayIndex && shown.kind == row.kind && shown.score == row.score
    && shown.dimensions == row.dimensions && shown.assessment == row.assessment
    && shown.strengths == row.strengths && shown.concerns == row.risks
    && shown.agentKey == match Text.Strip(row.agentKey) {
      case "day1" => "designDocReviewer"
      case "day23" => "codeImplementationReviewer"
      case "day4" => "demoPresentationReviewer"
      case "day5" => "reflectionEssayReviewer"
      case other => other
    }
  }

  ghost predicate ByDayThenKey(rows: seq<ReviewerReport>) {
    forall i, j | 0 <= i < j < |rows| ::
      || rows[i].dayIndex < rows[j].dayIndex
      || (rows[i].dayIndex == rows[j].dayIndex && Precedes(rows[i].agentKey, rows[j].agentKey))
  }

  lemma DayKeyOrder()
    ensures TotalOrder(ByDayAndKey)
  {
    forall a: ReviewerReport, b: ReviewerReport ensures ByDayAndKey(a, b) || ByDayAndKey(b, a) {
      StringLeIsTotal(a.agentKey, b.agentKey);
    }
    forall a: ReviewerReport, b: ReviewerReport, c: ReviewerReport | ByDayAndKey(a, b) && ByDayAndKey(b, c)
      ensures ByDayAndKey(a, c)
    {
      if a.dayIndex == b.dayIndex == c.dayIndex {
        StringLeIsTransitive(a.agentKey, b.agentKey, c.agentKey);
      }
    }
  }

  lemma RowIsShown(row: ReviewerReport)
    ensures RowShown(row, ShownReport(row))
  {
  }

  /** The reviewer rows are shown one by one, by day and then by agent key. */
  lemma ReviewersFollowRows(run: Run, rows: seq<DayScore>, reviewers: seq<ReviewerReport>, lower: string -> string,
                            r: Composed) returns (order: seq<ReviewerReport>)
    requires Composes(run, rows, reviewers, lower, r)
    ensures multiset(order) == multiset(reviewers) && ByDayThenKey(order)
    ensures |r.reviewers| == |order| && forall i | 0 <= i < |order| :: RowShown(order[i], r.reviewers[i])
  {
    DayKeyOrder();
    SortedSorts(ByDayAndKey, reviewers);
    order := Sorted(ByDayAndKey, reviewers);
    forall i, j | 0 <= i < j < |order|
      ensures order[i].dayIndex < order[j].dayIndex
        || (order[i].dayIndex == order[j].dayIndex && Precedes(order[i].agentKey, order[j].agentKey))
    {
      StringLeIsPrecedes(order[i].agentKey, order[j].agentKey);
    }
    forall i | 0 <= i < |order| ensures RowShown(order[i], r.reviewers[i]) {
      RowIsShown(order[i]);
    }
  }

  // Days.

  /** The entry of the stored report asks for a human review of the day. */
  predicate AsksFor(raw: RawDay, day: int) {
    && raw.RawDay? && raw.dayIndex == Int(day) && 1 <= day <= 5
    && raw.status == Str("human_review_required")
    && raw.reason.Str? && !Text.Blank(raw.reason.s)
  }

  lemma ReviewMeans(raw: RawDay, day: int)
    ensures AsksFor(raw, day) <==> HumanReview(raw).Some? && HumanReview(raw).value.dayIndex == day
    ensures AsksFor(raw, day) ==> HumanReview(raw) == Some(ReviewDay(day, Text.Strip(raw.reason.s)))
  {
  }

  /** The last entry that asks for a review of the day gives the reason. */
  predicate LastAsks(raw: seq<RawDay>, day: int, reason: string) {
    exists k | 0 <= k < |raw| ::
      && AsksFor(raw[k], day) && reason == Text.Strip(raw[k].reason.s)
      && forall l | k < l < |raw| :: !AsksFor(raw[l], day)
  }

  lemma MoreThatDoNotAsk(raw: seq<RawDay>, day: int, reason: string)
    requires raw != [] && LastAsks(raw[..|raw| - 1], day, reason) && !AsksFor(raw[|raw| - 1], day)
    ensures LastAsks(raw, day, reason)
  {
    var front := raw[..|raw| - 1];
    var k :| 0 <= k < |front| && AsksFor(front[k], day) && reason == Text.Strip(front[k].reason.s)
      && forall l | k < l < |front| :: !AsksFor(front[l], day);
    assert AsksFor(raw[k], day);
    forall l | k < l < |raw| ensures !AsksFor(raw[l], day) {
      if l < |front| {
        assert front[l] == raw[l];
      }
    }
  }

  lemma {:induction false} PlaceholderIsLast(raw: seq<RawDay>, day: int, reason: string)
    requires Placeholder(raw, day) == Some(ReviewDay(day, reason))
    ensures LastAsks(raw, day, reason)
  {
    var n := |raw| - 1;
    ReviewMeans(raw[n], day);
    if !AsksFor(raw[n], day) {
      PlaceholderIsLast(raw[..n], day, reason);
      MoreThatDoNotAsk(raw, day, reason);
    }
  }

  /** A day with a row is shown with the row's score and rubric; another one as what the stored report
      asks a human for. */
  lemma DayFollowsRow(run: Run, rows: seq<DayScore>, reviewers: seq<ReviewerReport>, lower: string -> string,
                      r: Composed, i: nat)
    requires Composes(run, rows, reviewers, lower, r) && i < |r.dayScores|
    ensures var day := r.dayScores[i];
            if exists row | row in rows :: row.dayIndex == day.dayIndex
            then day.ScoredDay? && exists row | row in rows ::
                   row.dayIndex == day.dayIndex && row.score == day.score && row.rubric == day.rubric
            else day.ReviewDay? && LastAsks(RawDaysOf(run), day.dayIndex, day.reason)
  {
    var day := r.dayScores[i];
    assert ShownAs(rows, RawDaysOf(run), day);
    if day.dayIndex in ScoredDays(rows) {
      var row :| row in rows && day == ShownScore(row);
      assert row.score == day.score && row.rubric == day.rubric;
    } else {
      PlaceholderIsLast(RawDaysOf(run), day.dayIndex, day.reason);
    }
  }

  // The summary.

  /** A number between zero and one; JSON's true and false are not numbers. */
  predicate IsUnit(v: Value) {
    (v.Int? && 0 <= v.i <= 1) || (v.Real? && 0.0 <= v.r <= 1.0)
  }

  function Number(v: Value): real
    requires IsUnit(v)
  {
    if v.Int? then v.i as real else v.r
  }

  function StoredOverall(run: Run): Value {
    if run.raw.Some? then run.raw.value.overall else Nil
  }

  function StoredConfidence(run: Run): Value {
    if run.raw.Some? then run.raw.value.confidence else Nil
  }

  predicate HasUnit(score: Option<real>) {
    score.Some? && 0.0 <= score.value <= 1.0
  }

  lemma UnitMeans(v: Value)
    ensures Unit(v) == if IsUnit(v) then Some(Scoring.Round4(Number(v))) else None
  {
  }

  /** The run's own score and confidence come first, then those of the stored report. */
  lemma SummaryComesFrom(run: Run, rows: seq<DayScore>, reviewers: seq<ReviewerReport>, lower: string -> string,
                         r: Composed)
    requires Composes(run, rows, reviewers, lower, r)
    ensures HasUnit(run.overall) ==> r.overall == Scoring.Round4(run.overall.value)
    ensures !HasUnit(run.overall) && IsUnit(StoredOverall(run)) ==>
              r.overall == Scoring.Round4(Number(StoredOverall(run)))
    ensures !HasUnit(run.overall) && !IsUnit(StoredOverall(run)) ==>
              r.overall == Scoring.Overall(ScoresShown(r.dayScores))
    ensures HasUnit(run.confidence) ==> r.confidence == Scoring.Round4(run.confidence.value)
    ensures !HasUnit(run.confidence) && IsUnit(StoredConfidence(run)) ==>
              r.confidence == Scoring.Round4(Number(StoredConfidence(run)))
    ensures !HasUnit(run.confidence) && !IsUnit(StoredConfidence(run)) ==> r.confidence == 0.0
  {
    UnitMeans(AsValue(run.overall));
    UnitMeans(StoredOverall(run));
    UnitMeans(AsValue(run.confidence));
    UnitMeans(StoredConfidence(run));
  }

  /** The signal a lower-case name stands for. */
  function Signal(name: string): string {
    if name == "strong_hire" || name == "strong_signal" then "strong_signal"
    else if name == "hire" || name == "positive_signal" then "positive_signal"
    else if name == "no_hire" || name == "limited_signal" then "limited_signal"
    else "mixed_signal"
  }

  lemma SignalIsRead(name: string)
    ensures Signal(name) == SignalName(if Parsed(name).Some? then Parsed(name).value else Scoring.LeanHire)
  {
    assert |"no_hire"| == 7 && |"limited_signal"| == 14 && |"lean_hire"| == 9 && |"mixed_signal"| == 12;
  }

  /** The recommendation is shown as its signal: the run's own, else the stored report's, else mixed. */
  lemma SignalComesFrom(run: Run, rows: seq<DayScore>, reviewers: seq<ReviewerReport>, lower: string -> string,
                        r: Composed)
    requires Composes(run, rows, reviewers, lower, r)
    ensures r.recommendation ==
              match run.recommendation {
                case Some(StrongHire) => "strong_signal"
                case Some(Hire) => "positive_signal"
                case Some(LeanHire) => "mixed_signal"
                case Some(NoHire) => "limited_signal"
                case None =>
                  if run.raw.Some? && run.raw.value.recommendation.Str?
                  then Signal(lower(Text.Strip(run.raw.value.recommendation.s))) else "mixed_signal"
              }
  {
    if run.raw.Some? && run.raw.value.recommendation.Str? {
      SignalIsRead(lower(Text.Strip(run.raw.value.recommendation.s)));
    }
  }

  // The report of a bundle.

  /** What the deterministic reviewer of a day reports, as the report shows it. */
  predicate ReviewText(shown: ShownReviewer) {
    && shown.agentKey == (match shown.dayIndex {
      case 1 => "designDocReviewer"
      case 2 => "codeImplementationReviewer"
      case 3 => "codeImplementationReviewer"
      case 4 => "demoPresentationReviewer"
      case _ => "reflectionEssayReviewer"
    })
    && shown.assessment == "Deterministic demo/test reviewer output."
    && shown.strengths == (if shown.score >= 0.7 then ["Strong evidence-backed execution signal"] else [])
    && (shown.concerns == [] || shown.concerns == ["Observed failing automated tests"])
    && "signalStrength" in shown.dimensions && shown.dimensions["signalStrength"] == Real(shown.score)
    && "evidenceCount" in shown.dimensions && shown.dimensions["evidenceCount"] == Int(|shown.evidence|)
  }

  lemma DimensionsOf(day: DayInput)
    ensures var dimensions := RubricOf(day);
            && "signalStrength" in dimensions && dimensions["signalStrength"] == Real(Scoring.Score(day))
            && "evidenceCount" in dimensions
            && dimensions["evidenceCount"] == Int(|DayEvidence(day)|)
  {
    assert |"signalStrength"| == 14 && |"evidenceCount"| == 13 && |"taskType"| == 8;
  }

  lemma BundleReviewsRead(bundle: Bundle, lower: string -> string, report: Composed, i: nat)
    requires ShowsBundle(bundle, lower, report) && i < |report.reviewers|
    ensures ReviewText(report.reviewers[i])
  {
    var enabled := Enabled(Days(bundle),
                                                  DisabledDays(bundle));
    assert ReviewerShown(enabled[i], lower, report.reviewers[i]);
    DimensionsOf(enabled[i]);
  }
}
