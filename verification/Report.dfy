/**
 Composing the report of a completed run: scored days from the stored rows, placeholders from the
 stored report, and the summary.
 */
module Report {
  import opened Values
  import opened EvidencePointers
  import opened DayScores
  import opened ReviewerReports
  import opened RunTable
  import opened Sets
  import opened Sorting
  import Scoring
  import Text

  datatype ShownDay =
    | ScoredDay(dayIndex: int, score: real, rubric: Rubric, evidence: seq<Shown>)
    | ReviewDay(dayIndex: int, reason: string)

  datatype ShownReviewer = ShownReviewer(
    agentKey: string,
    dayIndex: int,
    kind: string,
    score: real,
    dimensions: Rubric,
    evidence: seq<Shown>,
    assessment: string,
    strengths: seq<string>,
    concerns: seq<string>)

  datatype Composed = Composed(
    overall: real,
    recommendation: string,
    confidence: real,
    dayScores: seq<ShownDay>,
    reviewers: seq<ShownReviewer>,
    disabledDays: Option<seq<int>>)

  /** The pointers the sanitizer does not drop. */
  function ShownPointers(pointers: seq<Pointer>): seq<Shown> {
    if pointers == [] then []
    else
      var front, last := ShownPointers(pointers[..|pointers| - 1]), Sanitized(pointers[|pointers| - 1]);
      if last.Some? then front + [last.value] else front
  }

  method SanitizeAll(pointers: seq<Pointer>) returns (shown: seq<Shown>)
    ensures shown == ShownPointers(pointers)
  {
    shown := [];
    for i := 0 to |pointers|
      invariant shown == ShownPointers(pointers[..i])
    {
      assert pointers[..i + 1][..i] == pointers[..i];
      var sanitized := Sanitized(pointers[i]);
      if sanitized.Some? {
        shown := shown + [sanitized.value];
      }
    }
    assert pointers[..|pointers|] == pointers;
  }

  // Days in ascending order.

  predicate StrictlyAscending(days: seq<int>) {
    forall i, j | 0 <= i < j < |days| :: days[i] < days[j]
  }

  method Least(days: set<int>) returns (least: int)
    requires days != {}
    ensures least in days && forall other | other in days :: least <= other
  {
    least := NextOf(days);
    var rest := days - {least};
    while rest != {}
      invariant rest <= days && least in days && forall other | other in days && other !in rest :: least <= other
      decreases rest
    {
      var day := NextOf(rest);
      least := if day < least then day else least;
      rest := rest - {day};
    }
  }

  /** `sorted(...)` of a set of ints */
  method SortedDays(days: set<int>) returns (r: seq<int>)
    ensures StrictlyAscending(r) && forall day :: day in r <==> day in days
  {
    r := [];
    var rest := days;
    while rest != {}
      invariant rest <= days && StrictlyAscending(r)
      invariant forall day :: day in r <==> day in days - rest
      invariant forall day, later | day in r && later in rest :: day < later
      decreases rest
    {
      var day := Least(rest);
      assert forall i | 0 <= i < |r| :: r[i] in r;
      r := r + [day];
      rest := rest - {day};
    }
  }

  // Day scores.

  /** `_human_review_day_from_raw` */
  function HumanReview(raw: RawDay): Option<ShownDay> {
    if raw.RawDay? && raw.dayIndex.Int? && 1 <= raw.dayIndex.i <= 5
       && raw.status == Str("human_review_required") && IsText(raw.reason)
    then Some(ReviewDay(raw.dayIndex.i, Text.Strip(raw.reason.s)))
    else None
  }

  function ShownScore(row: DayScore): ShownDay {
    ScoredDay(row.dayIndex, row.score, row.rubric, ShownPointers(row.evidence))
  }

  function ScoredDays(rows: seq<DayScore>): set<int> {
    set row | row in rows :: row.dayIndex
  }

  /** The placeholder of a day: the last one the stored report has for it. */
  function Placeholder(raw: seq<RawDay>, day: int): (r: Option<ShownDay>)
    ensures r.Some? ==> r.value.ReviewDay? && r.value.dayIndex == day && 1 <= day <= 5
    ensures r.Some? <==>
              exists i | 0 <= i < |raw| :: HumanReview(raw[i]).Some? && HumanReview(raw[i]).value.dayIndex == day
  {
    if raw == [] then None
    else
      var last := HumanReview(raw[|raw| - 1]);
      var rest := raw[..|raw| - 1];
      assert forall i | 0 <= i < |rest| :: rest[i] == raw[i];
      if last.Some? && last.value.dayIndex == day then last else Placeholder(rest, day)
  }

  /** A stored score wins over a placeholder. */
  predicate ShownAs(rows: seq<DayScore>, raw: seq<RawDay>, shown: ShownDay) {
    if shown.dayIndex in ScoredDays(rows) then exists row | row in rows :: shown == ShownScore(row)
    else Placeholder(raw, shown.dayIndex) == Some(shown)
  }

  predicate DaysAscend(shown: seq<ShownDay>) {
    forall i, j | 0 <= i < j < |shown| :: shown[i].dayIndex < shown[j].dayIndex
  }

  function DaysShown(shown: seq<ShownDay>): set<int> {
    set day | day in shown :: day.dayIndex
  }

  /** The days with a score or a placeholder, each once and in ascending order. */
  predicate ShowsDays(rows: seq<DayScore>, raw: seq<RawDay>, shown: seq<ShownDay>) {
    && DaysAscend(shown)
    && (forall i | 0 <= i < |shown| :: ShownAs(rows, raw, shown[i]))
    && (forall row | row in rows :: row.dayIndex in DaysShown(shown))
    && (forall day | 1 <= day <= 5 && Placeholder(raw, day).Some? :: day in DaysShown(shown))
  }

  method CollectScored(rows: seq<DayScore>) returns (scored: map<int, ShownDay>)
    ensures scored.Keys == ScoredDays(rows)
    ensures forall day | day in scored :: scored[day].dayIndex == day && exists row | row in rows ::
              scored[day] == ShownScore(row)
  {
    scored := map[];
    for i := 0 to |rows|
      invariant scored.Keys == ScoredDays(rows[..i])
      invariant forall day | day in scored :: scored[day].dayIndex == day && exists row | row in rows ::
                  scored[day] == ShownScore(row)
    {
      var evidence := SanitizeAll(rows[i].evidence);
      scored := scored[rows[i].dayIndex := ScoredDay(rows[i].dayIndex, rows[i].score, rows[i].rubric, evidence)];
      assert scored[rows[i].dayIndex] == ShownScore(rows[i]);
      assert rows[..i + 1] == rows[..i] + [rows[i]];
    }
    assert rows[..|rows|] == rows;
  }

  method CollectPlaceholders(raw: seq<RawDay>, scored: set<int>) returns (placeholders: map<int, ShownDay>)
    ensures forall day :: day in placeholders <==> day !in scored && Placeholder(raw, day).Some?
    ensures forall day | day in placeholders :: Placeholder(raw, day) == Some(placeholders[day])
  {
    placeholders := map[];
    for i := 0 to |raw|
      invariant forall day :: day in placeholders <==> day !in scored && Placeholder(raw[..i], day).Some?
      invariant forall day | day in placeholders :: Placeholder(raw[..i], day) == Some(placeholders[day])
    {
      assert raw[..i + 1][..i] == raw[..i];
      var placeholder := HumanReview(raw[i]);
      if placeholder.Some? && placeholder.value.dayIndex !in scored {
        placeholders := placeholders[placeholder.value.dayIndex := placeholder.value];
      }
    }
    assert raw[..|raw|] == raw;
  }

  /** `_compose_day_scores` */
  method ComposeDayScores(rows: seq<DayScore>, raw: seq<RawDay>) returns (shown: seq<ShownDay>)
    ensures ShowsDays(rows, raw, shown)
  {
    var scored := CollectScored(rows);
    var placeholders := CollectPlaceholders(raw, scored.Keys);
    var days := SortedDays(scored.Keys + placeholders.Keys);
    shown := [];
    for i := 0 to |days|
      invariant |shown| == i && forall j | 0 <= j < i :: shown[j].dayIndex == days[j] && ShownAs(rows, raw, shown[j])
    {
      assert days[i] in days;
      var day := if days[i] in scored then scored[days[i]] else placeholders[days[i]];
      shown := shown + [day];
    }
    forall day | day in days ensures day in DaysShown(shown) {
      var i :| 0 <= i < |days| && days[i] == day;
      assert shown[i] in shown;
    }
  }

  // Reviewer reports.

  function CurrentKey(key: string): string {
    var k := Text.Strip(key);
    if k == "day1" then "designDocReviewer"
    else if k == "day23" then "codeImplementationReviewer"
    else if k == "day4" then "demoPresentationReviewer"
    else if k == "day5" then "reflectionEssayReviewer"
    else k
  }

  /** `(day_index, reviewer_agent_key)`; rows come in the order of their ids, and the sort is stable. */
  predicate ByDayAndKey(a: ReviewerReport, b: ReviewerReport) {
    a.dayIndex < b.dayIndex || (a.dayIndex == b.dayIndex && StringLe(a.agentKey, b.agentKey))
  }

  function ShownReport(row: ReviewerReport): ShownReviewer {
    ShownReviewer(CurrentKey(row.agentKey), row.dayIndex, row.kind, row.score, row.dimensions,
                  ShownPointers(row.evidence),
                  row.assessment, row.strengths, row.risks)
  }

  function ShownReports(rows: seq<ReviewerReport>): seq<ShownReviewer> {
    var sorted := Sorted(ByDayAndKey, rows);
    seq(|sorted|, i requires 0 <= i < |sorted| => ShownReport(sorted[i]))
  }

  /** `_compose_reviewer_reports`, for a run that has reviewer rows */
  method ComposeReviewers(rows: seq<ReviewerReport>) returns (shown: seq<ShownReviewer>)
    ensures shown == ShownReports(rows)
  {
    var sorted := Sorted(ByDayAndKey, rows);
    shown := [];
    for i := 0 to |sorted|
      invariant |shown| == i && forall j | 0 <= j < i :: shown[j] == ShownReport(sorted[j])
    {
      var evidence := SanitizeAll(sorted[i].evidence);
      var row := sorted[i];
      shown := shown + [ShownReviewer(CurrentKey(row.agentKey), row.dayIndex, row.kind, row.score, row.dimensions,
                                      evidence, row.assessment, row.strengths, row.risks)];
    }
  }

  // The summary.

  /** `_normalize_unit_interval` */
  function Unit(v: Value): Option<real> {
    var r := CheckedScore(v);
    if r.Accepted? && 0.0 <= r.value <= 1.0 then Some(Scoring.Round4(r.value)) else None
  }

  function AsValue(score: Option<real>): Value {
    if score.Some? then Real(score.value) else Nil
  }

  function ScoresShown(shown: seq<ShownDay>): seq<real> {
    if shown == [] then []
    else
      var front, last := ScoresShown(shown[..|shown| - 1]), shown[|shown| - 1];
      if last.ScoredDay? then front + [last.score] else front
  }

  /** The run's score; else the stored report's; else the mean of the scored days. */
  function OverallShown(run: Run, shown: seq<ShownDay>): real {
    var own := Unit(AsValue(run.overall));
    var stored := if run.raw.Some? then Unit(run.raw.value.overall) else None;
    if own.Some? then own.value
    else if stored.Some? then stored.value
    else Scoring.Overall(ScoresShown(shown))
  }

  function ConfidenceShown(run: Run): real {
    var own := Unit(AsValue(run.confidence));
    var stored := if run.raw.Some? then Unit(run.raw.value.confidence) else None;
    if own.Some? then own.value else if stored.Some? then stored.value else 0.0
  }

  /** `_normalize_recommendation` of the run's, else of the stored report's. */
  function RecommendationShown(run: Run, lower: string -> string): string {
    if run.recommendation.Some? then SignalName(run.recommendation.value)
    else if run.raw.Some? && run.raw.value.recommendation.Str? then
      var parsed := Parsed(lower(Text.Strip(run.raw.value.recommendation.s)));
      SignalName(if parsed.Some? then parsed.value else Scoring.LeanHire)
    else SignalName(Scoring.LeanHire)
  }

  /** The days the metadata lists, but for values that are no day. */
  function ListedDays(metadata: Option<Metadata>): set<int> {
    if metadata.Some? && metadata.value.disabledDays.Some? then
      set v | v in metadata.value.disabledDays.value && AsInt(v).Some? && 1 <= AsInt(v).value <= 5 :: AsInt(v).value
    else {}
  }

  function ReviewDays(shown: seq<ShownDay>): set<int> {
    set day | day in shown && day.ReviewDay? :: day.dayIndex
  }

  ghost predicate ShowsDisabled(days: set<int>, shown: Option<seq<int>>) {
    if shown.Some? then StrictlyAscending(shown.value) && shown.value != [] && forall day :: day in shown.value <==>
        day in days
    else days == {}
  }

  function RawDaysOf(run: Run): seq<RawDay> {
    if run.raw.Some? && run.raw.value.dayScores.Some? then run.raw.value.dayScores.value else []
  }

  ghost predicate Composes(run: Run, rows: seq<DayScore>, reviewers: seq<ReviewerReport>, lower: string -> string,
                           r: Composed) {
    && ShowsDays(rows, RawDaysOf(run), r.dayScores)
    && r.overall == OverallShown(run, r.dayScores)
    && r.confidence == ConfidenceShown(run)
    && r.recommendation == RecommendationShown(run, lower)
    && r.reviewers == ShownReports(reviewers)
    && ShowsDisabled(ListedDays(run.metadata) + ReviewDays(r.dayScores), r.disabledDays)
  }

  /** `compose_report` */
  method ComposeReport(run: Run, rows: seq<DayScore>, reviewers: seq<ReviewerReport>, lower: string -> string)
    returns (r: Composed)
    ensures Composes(run, rows, reviewers, lower, r)
  {
    var dayScores := ComposeDayScores(rows, RawDaysOf(run));
    var shown := ComposeReviewers(reviewers);
    var overall := Unit(AsValue(run.overall));
    if overall.None? && run.raw.Some? {
      overall := Unit(run.raw.value.overall);
    }
    if overall.None? {
      overall := Some(Scoring.Overall(ScoresShown(dayScores)));
    }
    var confidence := Unit(AsValue(run.confidence));
    if confidence.None? && run.raw.Some? {
      confidence := Unit(run.raw.value.confidence);
    }
    var disabled := ListedDays(run.metadata);
    disabled := disabled + ReviewDays(dayScores);
    var disabledDays := None;
    if disabled != {} {
      var days := SortedDays(disabled);
      assert AnyOf(disabled) in days;
      disabledDays := Some(days);
    }
    return Composed(overall.value, RecommendationShown(run, lower), if confidence.Some? then confidence.value else 0.0,
                    dayScores, shown, disabledDays);
  }
}
