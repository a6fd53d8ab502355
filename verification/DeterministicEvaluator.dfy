/**
 The deterministic evaluator: days in ascending order, the disabled ones set aside for human
 review, the others scored from the evidence gathered for them.
 */
module DeterministicEvaluator {
  import opened Values
  import opened EvidencePointers
  import opened EvaluatorEvidence
  import opened DayScores
  import opened ReviewerReports
  import opened RunTable
  import opened RunSession
  import opened Pipeline
  import opened Scoring
  import opened Sorting
  import Text

  datatype Bundle = Bundle(dayInputs: seq<DayInput>, disabled: seq<int>)

  predicate ByDay(a: DayInput, b: DayInput) {
    a.dayIndex <= b.dayIndex
  }

  function Days(bundle: Bundle): seq<DayInput> {
    Sorted(ByDay, bundle.dayInputs)
  }

  function DisabledDays(bundle: Bundle): set<int> {
    set day | day in bundle.disabled
  }

  // One day.

  function ReviewerKey(dayIndex: int): string {
    if dayIndex == 1 then "designDocReviewer"
    else if dayIndex == 2 || dayIndex == 3 then "codeImplementationReviewer"
    else if dayIndex == 4 then "demoPresentationReviewer"
    else "reflectionEssayReviewer"
  }

  function SubmissionKind(day: DayInput, lower: string -> string): string {
    if day.taskType.Some? && !Text.Blank(day.taskType.value) then lower(Text.Strip(day.taskType.value))
    else if day.dayIndex == 2 || day.dayIndex == 3 then "code"
    else if day.dayIndex == 4 then "transcript"
    else "text"
  }

  function RubricOf(day: DayInput): Rubric {
    map["signalStrength" := Real(Score(day)), "evidenceCount" := Int(|DayEvidence(day)|),
        "taskType" := if day.taskType.Some? then Str(day.taskType.value) else Nil]
  }

  function ResultOf(day: DayInput): DayResult {
    DayResult(Int(day.dayIndex), Real(Score(day)), Given(RubricOf(day)), Items(AsItems(DayEvidence(day))))
  }

  function Listed(present: bool, text: string): Field<seq<Value>> {
    if present then Given([Str(text)]) else Missing
  }

  const ASSESSMENT := "Deterministic demo/test reviewer output."
  const STRENGTH := "Strong evidence-backed execution signal"
  const RISK := "Observed failing automated tests"

  function ReportOf(day: DayInput, lower: string -> string): ReportEntry {
    ReportEntry(
      Int(day.dayIndex), Str(ReviewerKey(day.dayIndex)), Str(SubmissionKind(day, lower)), Real(Score(day)),
          Given(RubricOf(day)),
      Items(AsItems(DayEvidence(day))), Str(ASSESSMENT),
      Listed(Score(day) >= 0.7, STRENGTH),
      Listed(Count(day.testsFailed) != 0, RISK),
      Given(map["dayIndex" := Int(day.dayIndex), "score" := Real(Score(day)), "summary" := Str(ASSESSMENT)]))
  }

  const REVIEW_STATUS := "human_review_required"
  const DISABLED_REASON := "ai_eval_disabled_for_day"

  function RawDayOf(day: DayInput, disabled: set<int>): RawDay {
    if day.dayIndex in disabled then RawDay(Int(day.dayIndex), Str(REVIEW_STATUS), Str(DISABLED_REASON))
    else RawDay(Int(day.dayIndex), Str("scored"), Nil)
  }

  // All of them.

  function Enabled(days: seq<DayInput>, disabled: set<int>): (r: seq<DayInput>)
    ensures forall day :: day in r <==> day in days && day.dayIndex !in disabled
  {
    if days == [] then []
    else
      var front, last := Enabled(days[..|days| - 1], disabled), days[|days| - 1];
      assert days == days[..|days| - 1] + [last];
      if last.dayIndex in disabled then front else front + [last]
  }

  function ResultsOf(days: seq<DayInput>): seq<DayResult> {
    Mapped(ResultOf, days)
  }

  function ReportMaker(lower: string -> string): DayInput -> ReportEntry {
    day => ReportOf(day, lower)
  }

  function ReportsFrom(days: seq<DayInput>, lower: string -> string): seq<ReportEntry> {
    Mapped(ReportMaker(lower), days)
  }

  function RawDayMaker(disabled: set<int>): DayInput -> RawDay {
    day => RawDayOf(day, disabled)
  }

  function RawDays(days: seq<DayInput>, disabled: set<int>): seq<RawDay> {
    Mapped(RawDayMaker(disabled), days)
  }

  function EvidenceTotal(days: seq<DayInput>): nat {
    if days == [] then 0 else EvidenceTotal(days[..|days| - 1]) + |DayEvidence(days[|days| - 1])|
  }

  function OverallOf(days: seq<DayInput>): real {
    Overall(Scores(days))
  }

  function ConfidenceOf(days: seq<DayInput>): real {
    Confidence(|days|, EvidenceTotal(days))
  }

  function EvaluationOfDays(days: seq<DayInput>, disabled: set<int>, lower: string -> string): Evaluation {
    var enabled := Enabled(days, disabled);
    var overall, confidence := OverallOf(enabled), ConfidenceOf(enabled);
    var recommendation := Str(RecommendationName(Recommended(overall)));
    Evaluated(ResultsOf(enabled), ReportsFrom(enabled, lower), Real(overall), recommendation, Real(confidence),
              Given(RawReport(Real(overall), recommendation, Real(confidence), Some(RawDays(days, disabled)))))
  }

  /** What `evaluate` makes of a bundle. */
  function EvaluationOf(bundle: Bundle, lower: string -> string): Evaluation {
    EvaluationOfDays(Days(bundle), DisabledDays(bundle), lower)
  }

  /** `_deterministic_day_review` */
  method ReviewDay(day: DayInput, lower: string -> string) returns (result: DayResult, report: ReportEntry)
    ensures result == ResultOf(day) && report == ReportOf(day, lower)
  {
    var evidence := BuildDayEvidence(day);
    var score := ScoreForDay(day, evidence);
    var rubric: Rubric := map["signalStrength" := Real(score), "evidenceCount" := Int(|evidence|),
                              "taskType" := if day.taskType.Some? then Str(day.taskType.value) else Nil];
    result := DayResult(Int(day.dayIndex), Real(score), Given(rubric), Items(AsItems(evidence)));
    report := ReportEntry(
      Int(day.dayIndex), Str(ReviewerKey(day.dayIndex)), Str(SubmissionKind(day, lower)), Real(score), Given(rubric),
      Items(AsItems(evidence)), Str(ASSESSMENT),
      Listed(score >= 0.7, STRENGTH),
      Listed(Count(day.testsFailed) != 0, RISK),
      Given(map["dayIndex" := Int(day.dayIndex), "score" := Real(score), "summary" := Str(ASSESSMENT)]));
  }

  lemma ResultParts(days: seq<DayInput>, i: nat)
    requires i < |days|
    ensures var result := ResultsOf(days)[i];
            result.score == Real(Scores(days)[i]) && result.evidence.Items?
                && |result.evidence.items| == |DayEvidence(days[i])|
  {
  }

  lemma SumNext(xs: seq<real>, i: nat)
    requires i < |xs|
    ensures Sum(xs[..i + 1]) == Sum(xs[..i]) + xs[i]
  {
    assert xs[..i + 1][..i] == xs[..i];
  }

  lemma EvidenceNext(days: seq<DayInput>, i: nat)
    requires i < |days|
    ensures EvidenceTotal(days[..i + 1]) == EvidenceTotal(days[..i]) + |DayEvidence(days[i])|
  {
    assert days[..i + 1][..i] == days[..i];
  }

  /** `_aggregate_scores` */
  method AggregateScores(results: seq<DayResult>, ghost days: seq<DayInput>) returns (overall: real, confidence: real)
    requires results == ResultsOf(days)
    ensures overall == OverallOf(days) && confidence == ConfidenceOf(days)
  {
    if results == [] {
      return 0.0, 0.0;
    }
    ghost var scores := Scores(days);
    var total, evidence := 0.0, 0;
    for i := 0 to |results|
      invariant total == Sum(scores[..i]) && evidence == EvidenceTotal(days[..i])
    {
      ResultParts(days, i);
      SumNext(scores, i);
      EvidenceNext(days, i);
      total := total + results[i].score.r;
      evidence := evidence + |results[i].evidence.items|;
    }
    assert scores[..|days|] == scores && days[..|days|] == days;
    overall := Round4(total / |results| as real);
    confidence := Confidence(|results|, evidence);
  }

  lemma EnabledNext(days: seq<DayInput>, i: nat, disabled: set<int>)
    requires i < |days|
    ensures Enabled(days[..i + 1], disabled)
         == Enabled(days[..i], disabled) + if days[i].dayIndex in disabled then [] else [days[i]]
  {
    assert days[..i + 1][..i] == days[..i];
  }

  lemma OneMoreDay(days: seq<DayInput>, i: nat, disabled: set<int>, lower: string -> string)
    requires i < |days|
    ensures RawDays(days[..i + 1], disabled) == RawDays(days[..i], disabled) + [RawDayMaker(disabled)(days[i])]
    ensures var before, after := Enabled(days[..i], disabled), Enabled(days[..i + 1], disabled);
            if days[i].dayIndex in disabled then after == before
            else ResultsOf(after) == ResultsOf(before) + [ResultOf(days[i])]
                 && ReportsFrom(after, lower) == ReportsFrom(before, lower) + [ReportMaker(lower)(days[i])]
  {
    assert days[..i + 1] == days[..i] + [days[i]];
    MappedMore(RawDayMaker(disabled), days[..i], days[i]);
    EnabledNext(days, i, disabled);
    MappedMore(ResultOf, Enabled(days[..i], disabled), days[i]);
    MappedMore(ReportMaker(lower), Enabled(days[..i], disabled), days[i]);
  }

  /** `DeterministicWinoeReportEvaluator.evaluate` */
  method Evaluate(bundle: Bundle, lower: string -> string) returns (r: Evaluation)
    ensures r == EvaluationOf(bundle, lower)
  {
    var days, disabled := Days(bundle), DisabledDays(bundle);
    var results: seq<DayResult>, reports: seq<ReportEntry>, rawDays: seq<RawDay> := [], [], [];
    for i := 0 to |days|
      invariant results == ResultsOf(Enabled(days[..i], disabled))
                  && reports == ReportsFrom(Enabled(days[..i], disabled), lower)
      invariant rawDays == RawDays(days[..i], disabled)
    {
      OneMoreDay(days, i, disabled, lower);
      rawDays := rawDays + [RawDayOf(days[i], disabled)];
      if days[i].dayIndex !in disabled {
        var result, report := ReviewDay(days[i], lower);
        results, reports := results + [result], reports + [report];
      }
    }
    assert days[..|days|] == days;
    var overall, confidence := AggregateScores(results, Enabled(days, disabled));
    var recommendation := Str(RecommendationName(Recommended(overall)));
    return Evaluated(results, reports, Real(overall), recommendation, Real(confidence),
                     Given(RawReport(Real(overall), recommendation, Real(confidence), Some(rawDays))));
  }
}
