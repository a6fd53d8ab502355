/**
 From a bundle of day inputs to the report and back: what the deterministic evaluator produces,
 persistence stores and the composer shows, day by day.
 */
module ReportRoundTrip {
  import opened Values
  import opened EvidencePointers
  import opened EvaluatorEvidence
  import opened DayScores
  import opened ReviewerReports
  import opened RunTable
  import opened RunSession
  import opened Pipeline
  import opened RunHistory
  import opened Scoring
  import opened Sorting
  import opened DeterministicEvaluator
  import opened Report
  import Text

  predicate DaysOk(days: seq<DayInput>) {
    && (forall i | 0 <= i < |days| :: 1 <= days[i].dayIndex <= 5)
    && (forall i, j | 0 <= i < j < |days| :: days[i].dayIndex != days[j].dayIndex)
  }

  /** Distinct days in 1..5, and disabled days in 1..5. */
  predicate BundleOk(bundle: Bundle) {
    DaysOk(bundle.dayInputs) && forall day | day in bundle.disabled :: 1 <= day <= 5
  }

  predicate Rising(days: seq<DayInput>) {
    forall i, j | 0 <= i < j < |days| :: days[i].dayIndex < days[j].dayIndex
  }

  /** Lower-casing keeps text text, and leaves the recommendation names alone. */
  ghost predicate LowersWell(lower: string -> string) {
    && (forall s {:trigger lower(s)} :: Text.Blank(lower(s)) <==> Text.Blank(s))
    && (forall r: Recommendation :: lower(RecommendationName(r)) == RecommendationName(r))
  }

  // The days in order.

  lemma DaysAreSorted(bundle: Bundle)
    requires BundleOk(bundle)
    ensures Rising(Days(bundle)) && DaysOk(Days(bundle))
    ensures multiset(Days(bundle)) == multiset(bundle.dayInputs)
    ensures forall day :: day in Days(bundle) <==> day in bundle.dayInputs
  {
    SortedSorts(ByDay, bundle.dayInputs);
    var a, b := bundle.dayInputs, Days(bundle);
    forall day ensures day in b <==> day in a {
      assert day in multiset(a) <==> day in multiset(b);
    }
    forall i, j | 0 <= i < j < |b| ensures b[i].dayIndex < b[j].dayIndex {
      assert ByDay(b[i], b[j]);
      if b[i].dayIndex == b[j].dayIndex {
        DistinctAfterSorting(a, b, i, j);
      }
    }
    forall i | 0 <= i < |b| ensures 1 <= b[i].dayIndex <= 5 {
      assert b[i] in a;
    }
  }

  lemma DistinctAfterSorting(a: seq<DayInput>, b: seq<DayInput>, i: nat, j: nat)
    requires DaysOk(a) && multiset(a) == multiset(b) && i < j < |b|
    ensures b[i].dayIndex != b[j].dayIndex
  {
    assert b[i] in multiset(b) && b[j] in multiset(b);
    var k :| 0 <= k < |a| && a[k] == b[i];
    var l :| 0 <= l < |a| && a[l] == b[j];
    if k == l {
      TwiceInSequence(b, i, j);
      OnceInDistinct(a, k);
    }
  }

  lemma TwiceInSequence(b: seq<DayInput>, i: nat, j: nat)
    requires i < j < |b| && b[i] == b[j]
    ensures multiset(b)[b[i]] >= 2
  {
    assert b == b[..j] + b[j..];
    assert multiset(b) == multiset(b[..j]) + multiset(b[j..]);
    assert b[i] in b[..j] && b[j] in b[j..];
    assert b[..j][i] == b[i] && b[j..][0] == b[j];
  }

  lemma OnceInDistinct(a: seq<DayInput>, k: nat)
    requires DaysOk(a) && k < |a|
    ensures multiset(a)[a[k]] == 1
  {
    assert a == a[..k] + [a[k]] + a[k + 1..];
    assert a[k] !in a[..k] && a[k] !in a[k + 1..];
    assert multiset(a) == multiset(a[..k]) + multiset{a[k]} + multiset(a[k + 1..]);
  }

  lemma {:induction false} EnabledRises(days: seq<DayInput>, disabled: set<int>)
    requires Rising(days)
    ensures Rising(Enabled(days, disabled))
  {
    if days != [] {
      EnabledRises(days[..|days| - 1], disabled);
    }
  }

  // What persistence makes of it.

  lemma ScoreInUnit(day: DayInput)
    ensures 0.0 <= Score(day) <= 1.0
  {
    Round4Between(Clamped(RawScore(day, DayEvidence(day))), 0, 10000);
  }

  lemma EvidenceAcceptedIff(day: DayInput, urlOk: string -> bool)
    requires AcceptsGithub(urlOk)
    ensures EvidenceAccepted(Items(AsItems(DayEvidence(day))), urlOk) <==> !UsesBlankRef(day)
  {
    DayEvidenceAccepted(day, urlOk);
    var evidence := DayEvidence(day);
    assert forall i | 0 <= i < |evidence| ::
        NormalizedItem(AsItems(evidence)[i], urlOk) == NormalizedPointer(evidence[i], urlOk);
  }

  lemma StartsWithText(s: string)
    requires s != "" && !Text.IsSpace(s[0])
    ensures !Text.Blank(s)
  {
  }

  lemma KeyIsText(dayIndex: int)
    ensures !Text.Blank(ReviewerKey(dayIndex))
  {
    assert ReviewerKey(dayIndex)[0] in {'d', 'c', 'r'};
    StartsWithText(ReviewerKey(dayIndex));
  }

  lemma KindIsText(day: DayInput, lower: string -> string)
    requires LowersWell(lower)
    ensures !Text.Blank(SubmissionKind(day, lower))
  {
    if day.taskType.Some? && !Text.Blank(day.taskType.value) {
      var stripped := Text.Strip(day.taskType.value);
      assert Text.Trimmed(stripped);
      assert Text.Blank(lower(stripped)) <==> Text.Blank(stripped);
    } else {
      assert SubmissionKind(day, lower)[0] in {'c', 't'};
      StartsWithText(SubmissionKind(day, lower));
    }
  }

  lemma ListedIsAccepted(present: bool, text: string)
    requires !Text.Blank(text)
    ensures TextsAccepted(Listed(present, text))
  {
  }

  predicate FineButForEvidence(e: ReportEntry) {
    && e.ReportEntry? && CheckedDay(e.dayIndex).Accepted? && e.score.Real?
    && IsText(e.agentKey) && IsText(e.kind) && IsText(e.assessment)
    && e.dimensions.Given? && e.raw.Given? && TextsAccepted(e.strengths) && TextsAccepted(e.risks)
  }

  lemma ConstantsAreText()
    ensures IsText(Str(ASSESSMENT)) && !Text.Blank(STRENGTH) && !Text.Blank(RISK)
  {
    assert ASSESSMENT[0] == 'D' && STRENGTH[0] == 'S' && RISK[0] == 'O';
    StartsWithText(ASSESSMENT);
    StartsWithText(STRENGTH);
    StartsWithText(RISK);
  }

  lemma ReportIsFine(day: DayInput, lower: string -> string)
    requires LowersWell(lower) && 1 <= day.dayIndex <= 5
    ensures FineButForEvidence(ReportOf(day, lower))
  {
    KindIsText(day, lower);
    KeyIsText(day.dayIndex);
    ConstantsAreText();
    ListedIsAccepted(Score(day) >= 0.7, STRENGTH);
    ListedIsAccepted(Count(day.testsFailed) != 0, RISK);
  }

  lemma FineMeansEvidence(e: ReportEntry, urlOk: string -> bool)
    requires FineButForEvidence(e)
    ensures ReportAccepted(e, urlOk) <==> EvidenceAccepted(e.evidence, urlOk)
  {
  }

  lemma ReportAcceptedIff(e: ReportEntry, day: DayInput, urlOk: string -> bool, lower: string -> string)
    requires AcceptsGithub(urlOk) && LowersWell(lower) && 1 <= day.dayIndex <= 5
    requires e == ReportOf(day, lower)
    ensures ReportAccepted(e, urlOk) <==> !UsesBlankRef(day)
  {
    ReportIsFine(day, lower);
    FineMeansEvidence(e, urlOk);
    EvidenceAcceptedIff(day, urlOk);
  }

  lemma EntryAcceptedIff(day: DayInput, urlOk: string -> bool)
    requires AcceptsGithub(urlOk) && 1 <= day.dayIndex <= 5
    ensures ResultAccepted(ResultOf(day)) && (EntryAccepted(EntryFor(ResultOf(day)), urlOk) <==> !UsesBlankRef(day))
  {
    ScoreInUnit(day);
    EvidenceAcceptedIff(day, urlOk);
  }

  predicate AnyBlankRef(days: seq<DayInput>) {
    exists i | 0 <= i < |days| :: UsesBlankRef(days[i])
  }

  lemma ReportsVerdictOf(days: seq<DayInput>, urlOk: string -> bool, lower: string -> string)
    requires DaysOk(days) && AcceptsGithub(urlOk) && LowersWell(lower)
    ensures ReportsVerdict(ReportsFrom(days, lower), urlOk, lower) == if AnyBlankRef(days) then Refuses else Completes
  {
    var payload := ReportsFrom(days, lower);
    forall i | 0 <= i < |days| ensures ReportAccepted(payload[i], urlOk) <==> !UsesBlankRef(days[i]) {
      ReportAcceptedIff(payload[i], days[i], urlOk, lower);
    }
    DaysStayDistinct(days, lower);
    VerdictByReport(payload, days, urlOk, lower);
  }

  lemma DaysStayDistinct(days: seq<DayInput>, lower: string -> string)
    requires DaysOk(days)
    ensures var payload := ReportsFrom(days, lower);
            forall i, j | 0 <= i < j < |payload| :: payload[i].ReportEntry? && payload[j].ReportEntry?
                && payload[i].dayIndex != payload[j].dayIndex
  {
  }

  lemma VerdictByReport(payload: seq<ReportEntry>, days: seq<DayInput>, urlOk: string -> bool, lower: string -> string)
    requires |payload| == |days|
    requires forall i | 0 <= i < |days| :: ReportAccepted(payload[i], urlOk) <==> !UsesBlankRef(days[i])
    requires forall i, j | 0 <= i < j < |payload| :: payload[i].ReportEntry? && payload[j].ReportEntry?
               && payload[i].dayIndex != payload[j].dayIndex
    ensures ReportsVerdict(payload, urlOk, lower) == if AnyBlankRef(days) then Refuses else Completes
  {
    assert forall i, j | 0 <= i < j < |payload| :: !SameIdentity(payload[i], payload[j], lower);
    assert AgentDaysClear(payload);
    if AnyBlankRef(days) {
      var i :| 0 <= i < |days| && UsesBlankRef(days[i]);
      assert !ReportAccepted(payload[i], urlOk);
    }
  }

  lemma ScoresAcceptedIff(days: seq<DayInput>, urlOk: string -> bool)
    requires DaysOk(days) && AcceptsGithub(urlOk)
    ensures forall i | 0 <= i < |ResultsOf(days)| :: ResultAccepted(ResultsOf(days)[i])
    ensures PayloadAccepted(EntriesFor(ResultsOf(days)), true, urlOk) <==> !AnyBlankRef(days)
  {
    var results := ResultsOf(days);
    forall i | 0 <= i < |days| ensures ResultAccepted(results[i])
        && (EntryAccepted(EntryFor(results[i]), urlOk) <==> !UsesBlankRef(days[i])) {
      EntryAcceptedIff(days[i], urlOk);
    }
    var payload := EntriesFor(results);
    forall i | 0 <= i < |days|
      ensures payload[i].dayIndex == Int(days[i].dayIndex)
                && (EntryAccepted(payload[i], urlOk) <==> !UsesBlankRef(days[i])) {
    }
    AcceptedByEntry(payload, days, urlOk);
  }

  lemma AcceptedByEntry(payload: seq<Entry>, days: seq<DayInput>, urlOk: string -> bool)
    requires |payload| == |days| && DaysOk(days)
    requires forall i | 0 <= i < |days| :: payload[i].Entry? && payload[i].dayIndex == Int(days[i].dayIndex)
    requires forall i | 0 <= i < |days| :: EntryAccepted(payload[i], urlOk) <==> !UsesBlankRef(days[i])
    ensures PayloadAccepted(payload, true, urlOk) <==> !AnyBlankRef(days)
  {
    if AnyBlankRef(days) {
      var i :| 0 <= i < |days| && UsesBlankRef(days[i]);
      assert !EntryAccepted(payload[i], urlOk);
    }
  }

  lemma SummaryInUnit(days: seq<DayInput>)
    ensures 0.0 <= OverallOf(days) <= 1.0 && 0.0 <= ConfidenceOf(days) <= 1.0
  {
    ConfidenceBounds(|days|, EvidenceTotal(days));
    if days != [] {
      forall i | 0 <= i < |days| ensures 0.0 <= Scores(days)[i] <= 1.0 {
        ScoreInUnit(days[i]);
      }
      OverallBetween(Scores(days), 0, 10000);
    }
  }

  lemma SummaryAcceptedOf(c: Completion, r: Recommendation, lower: string -> string)
    requires LowersWell(lower) && c.recommendation == Str(RecommendationName(r)) && c.raw.Given? && c.metadata.Given?
    requires c.overall.Real? && 0.0 <= c.overall.r <= 1.0 && c.confidence.Real? && 0.0 <= c.confidence.r <= 1.0
    ensures SummaryAccepted(c, lower)
    ensures CheckedUnit(c.overall) == Accepted(Some(c.overall.r))
              && CheckedUnit(c.confidence) == Accepted(Some(c.confidence.r))
    ensures CheckedRecommendation(c.recommendation, lower) == Accepted(Some(r))
  {
    ParsedNames(r);
    assert lower(RecommendationName(r)) == RecommendationName(r);
  }

  /** Persistence accepts everything the deterministic evaluator produces, unless an enabled day had
      to use a run id or transcript reference that is only white space; then the run fails. */
  lemma DeterministicIsAccepted(bundle: Bundle, metadata: Metadata, urlOk: string -> bool, lower: string -> string)
    requires BundleOk(bundle) && AcceptsGithub(urlOk) && LowersWell(lower)
    ensures EvaluationUsable(EvaluationOf(bundle, lower))
    ensures VerdictOf(CompletionOf(EvaluationOf(bundle, lower), metadata), urlOk, lower)
         == if AnyBlankRef(Enabled(Days(bundle), DisabledDays(bundle))) then Refuses else Completes
  {
    DaysAreSorted(bundle);
    EnabledRises(Days(bundle), DisabledDays(bundle));
    var enabled := Enabled(Days(bundle), DisabledDays(bundle));
    EnabledAreOk(Days(bundle), DisabledDays(bundle));
    ScoresAcceptedIff(enabled, urlOk);
    ReportsVerdictOf(enabled, urlOk, lower);
    SummaryInUnit(enabled);
    SummaryAcceptedOf(CompletionOf(EvaluationOf(bundle, lower), metadata), Recommended(OverallOf(enabled)), lower);
  }

  lemma EnabledAreOk(days: seq<DayInput>, disabled: set<int>)
    requires DaysOk(days) && Rising(days)
    ensures DaysOk(Enabled(days, disabled))
  {
    EnabledRises(days, disabled);
    forall i | 0 <= i < |Enabled(days, disabled)| ensures 1 <= Enabled(days, disabled)[i].dayIndex <= 5 {
      assert Enabled(days, disabled)[i] in days;
    }
  }

  // What the composer makes of it.

  lemma LastIsShown(item: Item, stored: Pointer, urlOk: string -> bool)
    requires NormalizedItem(item, urlOk) == Accepted(stored)
    ensures Sanitized(stored).Some? && item.Object? && PointerShown(item.pointer, Sanitized(stored).value)
  {
    StoredPointerIsShown(item.pointer, urlOk);
  }

  /** The pointers of the evidence, each shown as handed in. */
  predicate EvidenceShown(evidence: seq<Pointer>, shown: seq<Shown>) {
    |shown| == |evidence| && forall i | 0 <= i < |evidence| :: PointerShown(evidence[i], shown[i])
  }

  /** Every stored pointer is shown. */
  lemma FrontNormalizes(evidence: seq<Pointer>, stored: seq<Pointer>, urlOk: string -> bool)
    requires evidence != [] && Normalizes(AsItems(evidence), urlOk, Accepted(stored))
    ensures var n := |evidence| - 1;
            && |stored| == |evidence| && Normalizes(AsItems(evidence[..n]), urlOk, Accepted(stored[..n]))
            && NormalizedItem(Object(evidence[n]), urlOk) == Accepted(stored[n])
  {
    var n, items := |evidence| - 1, AsItems(evidence);
    assert NormalizedItem(items[n], urlOk) == Accepted(stored[n]);
    forall i | 0 <= i < n ensures NormalizedItem(AsItems(evidence[..n])[i], urlOk) == Accepted(stored[..n][i]) {
      assert NormalizedItem(items[i], urlOk) == Accepted(stored[i]);
    }
  }

  lemma OneMoreShown(evidence: seq<Pointer>, shown: seq<Shown>, last: Shown)
    requires evidence != [] && EvidenceShown(evidence[..|evidence| - 1], shown)
    requires PointerShown(evidence[|evidence| - 1], last)
    ensures EvidenceShown(evidence, shown + [last])
  {
    assert forall i | 0 <= i < |shown| :: evidence[..|evidence| - 1][i] == evidence[i];
  }

  lemma {:induction false} AllAreShown(evidence: seq<Pointer>, stored: seq<Pointer>, urlOk: string -> bool)
    requires Normalizes(AsItems(evidence), urlOk, Accepted(stored))
    ensures EvidenceShown(evidence, ShownPointers(stored))
  {
    if evidence != [] {
      var n := |evidence| - 1;
      FrontNormalizes(evidence, stored, urlOk);
      LastIsShown(Object(evidence[n]), stored[n], urlOk);
      AllAreShown(evidence[..n], stored[..n], urlOk);
      OneMoreShown(evidence, ShownPointers(stored[..n]), Sanitized(stored[n]).value);
    }
  }

  predicate IsShown(day: DayInput, disabled: set<int>, shown: ShownDay) {
    if day.dayIndex in disabled then shown == ReviewDay(day.dayIndex, DISABLED_REASON)
    else
      && shown.ScoredDay? && shown.dayIndex == day.dayIndex && shown.score == Score(day)
          && shown.rubric == RubricOf(day)
      && EvidenceShown(DayEvidence(day), shown.evidence)
  }

  /** The row an enabled day is stored as. */
  predicate IsStored(day: DayInput, urlOk: string -> bool, row: DayScore) {
    && row.dayIndex == day.dayIndex && row.score == Score(day) && row.rubric == RubricOf(day)
    && EvidenceShown(DayEvidence(day), ShownPointers(row.evidence))
  }

  lemma StoredFields(day: DayInput, urlOk: string -> bool, row: DayScore)
    requires ResultAccepted(ResultOf(day)) && StoredAs(EntryFor(ResultOf(day)), urlOk, row)
    ensures row.dayIndex == day.dayIndex && row.score == Score(day) && row.rubric == RubricOf(day)
    ensures Normalizes(AsItems(DayEvidence(day)), urlOk, Accepted(row.evidence))
  {
    var entry := EntryFor(ResultOf(day));
    assert entry.rubric == Some(RubricOf(day)) && entry.evidence == Items(AsItems(DayEvidence(day)));
  }

  lemma RowHoldsTheDay(day: DayInput, urlOk: string -> bool, row: DayScore)
    requires ResultAccepted(ResultOf(day)) && StoredAs(EntryFor(ResultOf(day)), urlOk, row)
    ensures IsStored(day, urlOk, row)
  {
    StoredFields(day, urlOk, row);
    AllAreShown(DayEvidence(day), row.evidence, urlOk);
  }

  lemma RowsHoldTheDays(days: seq<DayInput>, urlOk: string -> bool, rows: seq<DayScore>)
    requires forall i | 0 <= i < |ResultsOf(days)| :: ResultAccepted(ResultsOf(days)[i])
    requires AllStored(EntriesFor(ResultsOf(days)), urlOk, rows)
    ensures |rows| == |days| && forall i | 0 <= i < |days| :: IsStored(days[i], urlOk, rows[i])
  {
    var payload := EntriesFor(ResultsOf(days));
    forall i | 0 <= i < |days| ensures IsStored(days[i], urlOk, rows[i]) {
      assert ResultAccepted(ResultsOf(days)[i]) && payload[i] == EntryFor(ResultOf(days[i]));
      RowHoldsTheDay(days[i], urlOk, rows[i]);
    }
  }

  lemma ReviewOf(day: DayInput, disabled: set<int>)
    requires 1 <= day.dayIndex <= 5
    ensures HumanReview(RawDayOf(day, disabled))
         == if day.dayIndex in disabled then Some(ReviewDay(day.dayIndex, DISABLED_REASON)) else None
  {
    assert DISABLED_REASON[0] == 'a' && DISABLED_REASON[|DISABLED_REASON| - 1] == 'y';
    assert Text.Trimmed(DISABLED_REASON);
    assert "scored"[0] == 's' && REVIEW_STATUS[0] == 'h';
  }

  lemma ReviewAt(days: seq<DayInput>, disabled: set<int>, i: nat)
    requires DaysOk(days) && i < |days|
    ensures HumanReview(RawDays(days, disabled)[i])
         == if days[i].dayIndex in disabled then Some(ReviewDay(days[i].dayIndex, DISABLED_REASON)) else None
  {
    assert RawDays(days, disabled)[i] == RawDayMaker(disabled)(days[i]) == RawDayOf(days[i], disabled);
    ReviewOf(days[i], disabled);
  }

  predicate ReviewsDay(raw: RawDay, day: int) {
    HumanReview(raw).Some? && HumanReview(raw).value.dayIndex == day
  }

  /** When only one entry can be the placeholder of a day, it is. */
  lemma {:induction false} OnlyPlaceholder(raw: seq<RawDay>, day: int, i: nat)
    requires i < |raw| && forall j | 0 <= j < |raw| && j != i :: !ReviewsDay(raw[j], day)
    ensures Placeholder(raw, day) == if ReviewsDay(raw[i], day) then HumanReview(raw[i]) else None
  {
    var n := |raw| - 1;
    if i < n {
      assert !ReviewsDay(raw[n], day);
      OnlyPlaceholder(raw[..n], day, i);
    } else {
      assert forall j | 0 <= j < n :: !ReviewsDay(raw[..n][j], day);
    }
  }

  /** The placeholders are those of the disabled days. */
  lemma PlaceholderOf(days: seq<DayInput>, disabled: set<int>, i: nat)
    requires DaysOk(days) && i < |days|
    ensures Placeholder(RawDays(days, disabled), days[i].dayIndex)
         == if days[i].dayIndex in disabled then Some(ReviewDay(days[i].dayIndex, DISABLED_REASON)) else None
  {
    var raw, day := RawDays(days, disabled), days[i].dayIndex;
    forall j | 0 <= j < |raw| && j != i ensures !ReviewsDay(raw[j], day) {
      ReviewAt(days, disabled, j);
    }
    ReviewAt(days, disabled, i);
    OnlyPlaceholder(raw, day, i);
  }

  lemma OnlyInputDaysHavePlaceholders(days: seq<DayInput>, disabled: set<int>, day: int)
    requires DaysOk(days) && Placeholder(RawDays(days, disabled), day).Some?
    ensures exists i :: 0 <= i < |days| && days[i].dayIndex == day
  {
    var raw := RawDays(days, disabled);
    var i :| 0 <= i < |raw| && HumanReview(raw[i]).Some? && HumanReview(raw[i]).value.dayIndex == day;
    ReviewAt(days, disabled, i);
  }

  lemma {:induction false} RisingIsUnique(a: seq<int>, b: seq<int>)
    requires StrictlyAscending(a) && StrictlyAscending(b) && forall x :: x in a <==> x in b
    ensures a == b
  {
    if a != [] || b != [] {
      assert (a != [] ==> a[0] in b) && (b != [] ==> b[0] in a);
      assert a[0] == b[0];
      forall x ensures x in a[1..] <==> x in b[1..] {
        if x in a[1..] {
          assert x in b && x != b[0];
          assert b == [b[0]] + b[1..];
        }
        if x in b[1..] {
          assert x in a && x != a[0];
          assert a == [a[0]] + a[1..];
        }
      }
      RisingIsUnique(a[1..], b[1..]);
    }
  }

  predicate HoldTheDays(days: seq<DayInput>, urlOk: string -> bool, rows: seq<DayScore>) {
    |rows| == |days| && forall i | 0 <= i < |days| :: IsStored(days[i], urlOk, rows[i])
  }

  /** The rows are for the enabled days, in order. */
  predicate SameOrder(enabled: seq<DayInput>, rows: seq<DayScore>) {
    |rows| == |enabled| && forall i | 0 <= i < |rows| :: rows[i].dayIndex == enabled[i].dayIndex
  }

  lemma ScoredAreEnabled(days: seq<DayInput>, disabled: set<int>, rows: seq<DayScore>, i: nat)
    requires DaysOk(days) && SameOrder(Enabled(days, disabled), rows) && i < |days|
    ensures days[i].dayIndex in ScoredDays(rows) <==> days[i].dayIndex !in disabled
  {
    var enabled := Enabled(days, disabled);
    if days[i].dayIndex !in disabled {
      assert days[i] in enabled;
      var k :| 0 <= k < |enabled| && enabled[k] == days[i];
      assert rows[k] in rows;
    }
    if days[i].dayIndex in ScoredDays(rows) {
      var k :| 0 <= k < |rows| && rows[k].dayIndex == days[i].dayIndex;
      assert enabled[k] in days && enabled[k].dayIndex !in disabled;
    }
  }

  lemma RowOf(days: seq<DayInput>, disabled: set<int>, rows: seq<DayScore>, i: nat, row: DayScore) returns (k: nat)
    requires DaysOk(days) && SameOrder(Enabled(days, disabled), rows) && i < |days|
    requires row in rows && row.dayIndex == days[i].dayIndex
    ensures k < |rows| && rows[k] == row && Enabled(days, disabled)[k] == days[i]
  {
    k :| 0 <= k < |rows| && rows[k] == row;
    assert Enabled(days, disabled)[k] in days;
    var j :| 0 <= j < |days| && days[j] == Enabled(days, disabled)[k];
  }

  lemma SameDays(days: seq<DayInput>, disabled: set<int>, rows: seq<DayScore>, shown: seq<ShownDay>, day: int)
    requires Rising(days) && DaysOk(days) && SameOrder(Enabled(days, disabled), rows)
    requires ShowsDays(rows, RawDays(days, disabled), shown)
    ensures day in DaysShown(shown) <==> exists i :: 0 <= i < |days| && days[i].dayIndex == day
  {
    if day in DaysShown(shown) {
      var k :| 0 <= k < |shown| && shown[k].dayIndex == day;
      assert ShownAs(rows, RawDays(days, disabled), shown[k]);
      if day in ScoredDays(rows) {
        var j :| 0 <= j < |rows| && rows[j].dayIndex == day;
        assert Enabled(days, disabled)[j] in days;
      } else {
        OnlyInputDaysHavePlaceholders(days, disabled, day);
      }
    }
    if i :| 0 <= i < |days| && days[i].dayIndex == day {
      ScoredAreEnabled(days, disabled, rows, i);
      PlaceholderOf(days, disabled, i);
    }
  }

  function ShownIndexes(shown: seq<ShownDay>): seq<int> {
    seq(|shown|, i requires 0 <= i < |shown| => shown[i].dayIndex)
  }

  function InputIndexes(days: seq<DayInput>): seq<int> {
    seq(|days|, i requires 0 <= i < |days| => days[i].dayIndex)
  }

  lemma ShownIndexIn(shown: seq<ShownDay>, x: int)
    ensures x in ShownIndexes(shown) <==> x in DaysShown(shown)
  {
    var a := ShownIndexes(shown);
    if x in a {
      var i :| 0 <= i < |a| && a[i] == x;
      assert shown[i] in shown;
    }
    if x in DaysShown(shown) {
      var i :| 0 <= i < |shown| && shown[i].dayIndex == x;
      assert a[i] == x;
    }
  }

  lemma InputIndexIn(days: seq<DayInput>, x: int)
    ensures x in InputIndexes(days) <==> exists i :: 0 <= i < |days| && days[i].dayIndex == x
  {
    var b := InputIndexes(days);
    if x in b {
      var i :| 0 <= i < |b| && b[i] == x;
      assert days[i].dayIndex == x;
    }
    if i :| 0 <= i < |days| && days[i].dayIndex == x {
      assert b[i] == x;
    }
  }

  lemma DaysAlign(days: seq<DayInput>, disabled: set<int>, rows: seq<DayScore>, shown: seq<ShownDay>)
    requires Rising(days) && DaysOk(days) && SameOrder(Enabled(days, disabled), rows)
    requires ShowsDays(rows, RawDays(days, disabled), shown)
    ensures ShownIndexes(shown) == InputIndexes(days)
  {
    forall x ensures x in ShownIndexes(shown) <==> x in InputIndexes(days) {
      SameDays(days, disabled, rows, shown, x);
      ShownIndexIn(shown, x);
      InputIndexIn(days, x);
    }
    RisingIsUnique(ShownIndexes(shown), InputIndexes(days));
  }

  lemma OneDayShown(days: seq<DayInput>, disabled: set<int>, urlOk: string -> bool, rows: seq<DayScore>, i: nat,
                    shown: ShownDay)
    requires Rising(days) && DaysOk(days) && i < |days|
    requires SameOrder(Enabled(days, disabled), rows) && HoldTheDays(Enabled(days, disabled), urlOk, rows)
    requires shown.dayIndex == days[i].dayIndex && ShownAs(rows, RawDays(days, disabled), shown)
    ensures IsShown(days[i], disabled, shown)
  {
    ScoredAreEnabled(days, disabled, rows, i);
    if days[i].dayIndex in disabled {
      PlaceholderOf(days, disabled, i);
    } else {
      var row :| row in rows && shown == ShownScore(row);
      var k := RowOf(days, disabled, rows, i, row);
      assert IsStored(Enabled(days, disabled)[k], urlOk, rows[k]);
    }
  }

  /** Each input day is shown exactly once, in ascending order, as what it is. */
  lemma DaysLineUp(days: seq<DayInput>, disabled: set<int>, urlOk: string -> bool, rows: seq<DayScore>,
                   shown: seq<ShownDay>)
    requires Rising(days) && DaysOk(days) && HoldTheDays(Enabled(days, disabled), urlOk, rows)
    requires ShowsDays(rows, RawDays(days, disabled), shown)
    ensures |shown| == |days| && forall i | 0 <= i < |days| :: IsShown(days[i], disabled, shown[i])
  {
    assert SameOrder(Enabled(days, disabled), rows);
    DaysAlign(days, disabled, rows, shown);
    assert |ShownIndexes(shown)| == |InputIndexes(days)|;
    forall i | 0 <= i < |days| ensures IsShown(days[i], disabled, shown[i]) {
      assert ShownIndexes(shown)[i] == InputIndexes(days)[i];
      assert ShownAs(rows, RawDays(days, disabled), shown[i]);
      OneDayShown(days, disabled, urlOk, rows, i, shown[i]);
    }
  }

  // The reviewer reports.

  predicate ReviewerShown(day: DayInput, lower: string -> string, shown: ShownReviewer) {
    && shown.dayIndex == day.dayIndex && shown.agentKey == ReviewerKey(day.dayIndex)
    && shown.score == Score(day) && shown.dimensions == RubricOf(day)
    && shown.kind == lower(Text.Strip(SubmissionKind(day, lower)))
    && shown.assessment == ASSESSMENT
    && shown.strengths == (if Score(day) >= 0.7 then [STRENGTH] else [])
    && shown.concerns == (if day.testsFailed.Some? && day.testsFailed.value != 0 then [RISK] else [])
    && EvidenceShown(DayEvidence(day), shown.evidence)
  }

  lemma StripOfTrimmed(s: string)
    requires s != "" && !Text.IsSpace(s[0]) && !Text.IsSpace(s[|s| - 1])
    ensures Text.Strip(s) == s
  {
  }

  lemma ConstantsAreTrimmed()
    ensures Text.Strip(ASSESSMENT) == ASSESSMENT && Text.Strip(STRENGTH) == STRENGTH && Text.Strip(RISK) == RISK
  {
    assert |ASSESSMENT| == 40 && |STRENGTH| == 39 && |RISK| == 32;
    StripOfTrimmed(ASSESSMENT);
    StripOfTrimmed(STRENGTH);
    StripOfTrimmed(RISK);
  }

  lemma ListedIsStored(present: bool, text: string, texts: seq<string>)
    requires Text.Strip(text) == text && TextsStored(Listed(present, text), texts)
    ensures texts == if present then [text] else []
  {
  }

  lemma KeyIsCurrent(dayIndex: int)
    ensures Text.Strip(ReviewerKey(dayIndex)) == ReviewerKey(dayIndex)
              && CurrentKey(ReviewerKey(dayIndex)) == ReviewerKey(dayIndex)
  {
    var key := ReviewerKey(dayIndex);
    assert key[0] in {'d', 'c', 'r'} && key[|key| - 1] == 'r';
    assert Text.Trimmed(key);
    assert |"day1"| == 4 && |"day23"| == 5 && |"day4"| == 4 && |"day5"| == 4 && |key| > 5;
  }

  lemma ReviewerIsShown(day: DayInput, urlOk: string -> bool, lower: string -> string, row: ReviewerReport)
    requires ReportStoredAs(ReportOf(day, lower), urlOk, lower, row)
    ensures ReviewerShown(day, lower, ShownReport(row)) && row.dayIndex == day.dayIndex
  {
    KeyIsCurrent(day.dayIndex);
    ConstantsAreTrimmed();
    ListedIsStored(Score(day) >= 0.7, STRENGTH, row.strengths);
    ListedIsStored(Count(day.testsFailed) != 0, RISK, row.risks);
    AllAreShown(DayEvidence(day), row.evidence, urlOk);
  }

  lemma ReviewersLineUp(days: seq<DayInput>, urlOk: string -> bool, lower: string -> string, rows: seq<ReviewerReport>)
    requires Rising(days) && AllReportsStored(ReportsFrom(days, lower), urlOk, lower, rows)
    ensures |ShownReports(rows)| == |days| && forall i | 0 <= i < |days| ::
              ReviewerShown(days[i], lower, ShownReports(rows)[i])
  {
    forall i | 0 <= i < |rows| ensures ReviewerShown(days[i], lower, ShownReport(rows[i]))
        && rows[i].dayIndex == days[i].dayIndex {
      assert ReportStoredAs(ReportsFrom(days, lower)[i], urlOk, lower, rows[i]);
      ReviewerIsShown(days[i], urlOk, lower, rows[i]);
    }
    SortedIsIdle(ByDayAndKey, rows);
  }

  // The summary, and all together.

  predicate ListsDisabled(metadata: Metadata, disabled: set<int>) {
    metadata.disabledDays.Some?
    && (forall v | v in metadata.disabledDays.value :: v.Int? && v.i in disabled)
    && (forall day | day in disabled :: Int(day) in metadata.disabledDays.value)
  }

  lemma DisabledAreListed(metadata: Metadata, disabled: set<int>)
    requires ListsDisabled(metadata, disabled) && forall day | day in disabled :: 1 <= day <= 5
    ensures ListedDays(Some(metadata)) == disabled
  {
    forall day | day in disabled ensures day in ListedDays(Some(metadata)) {
      assert Int(day) in metadata.disabledDays.value && AsInt(Int(day)) == Some(day);
    }
  }

  lemma RoundedIsShown(score: real)
    requires 0.0 <= score <= 1.0 && Round4(score) == score
    ensures Unit(Real(score)) == Some(score)
  {
  }

  lemma SummaryIsShown(days: seq<DayInput>)
    ensures Unit(Real(OverallOf(days))) == Some(OverallOf(days))
              && Unit(Real(ConfidenceOf(days))) == Some(ConfidenceOf(days))
  {
    SummaryInUnit(days);
    OverallIsRounded(Scores(days));
    RoundedIsShown(OverallOf(days));
    ConfidenceIsRounded(|days|, EvidenceTotal(days));
    RoundedIsShown(ConfidenceOf(days));
  }

  predicate SummaryOf(days: seq<DayInput>, report: Composed) {
    && report.overall == OverallOf(days) && report.confidence == ConfidenceOf(days)
    && report.recommendation == SignalName(Recommended(OverallOf(days)))
  }

  /** The report shows the days: each once and in order, and the summary of the enabled ones. */
  ghost predicate ShowsInOrder(days: seq<DayInput>, disabled: set<int>, lower: string -> string, report: Composed) {
    var enabled := Enabled(days, disabled);
    && |report.dayScores| == |days| && (forall i | 0 <= i < |days| :: IsShown(days[i], disabled, report.dayScores[i]))
    && |report.reviewers| == |enabled|
        && (forall i | 0 <= i < |enabled| :: ReviewerShown(enabled[i], lower, report.reviewers[i]))
    && SummaryOf(enabled, report)
    && ShowsDisabled(disabled, report.disabledDays)
  }

  /** The report shows the bundle, day by day in ascending order. */
  ghost predicate ShowsBundle(bundle: Bundle, lower: string -> string, report: Composed) {
    ShowsInOrder(Days(bundle), DisabledDays(bundle), lower, report)
  }

  /** What `complete_run` stored of the evaluation of a new run. */
  lemma NewRunStores(c: Completion, begun: Work, done: Work, world: World, urlOk: string -> bool,
                     lower: string -> string)
    requires begun.scores == [] && begun.reports == []
    requires CompletedWith(begun, c, urlOk, lower, world, done)
    ensures AllStored(c.dayScores, urlOk, done.scores) && AllReportsStored(c.reports, urlOk, lower, done.reports)
    ensures SummaryStored(done.run, c, lower, begun.run)
  {
    assert done.scores[|begun.scores|..] == done.scores;
    ReportsAddedToNone(c.reports, urlOk, lower, done.reports);
  }

  /** The summary columns as the composer reads them. */
  predicate SummaryHeld(days: seq<DayInput>, rawDays: seq<RawDay>, metadata: Metadata, run: Run) {
    && RawDaysOf(run) == rawDays && run.metadata == Some(metadata)
    && run.overall == Some(OverallOf(days)) && run.confidence == Some(ConfidenceOf(days))
    && run.recommendation == Some(Recommended(OverallOf(days)))
  }

  lemma SummaryIsHeld(days: seq<DayInput>, rawDays: seq<RawDay>, c: Completion, metadata: Metadata, run: Run, was: Run,
                      lower: string -> string)
    requires LowersWell(lower) && SummaryStored(run, c, lower, was)
    requires c.overall == Real(OverallOf(days)) && c.confidence == Real(ConfidenceOf(days))
               && c.metadata == Given(metadata)
    requires c.recommendation == Str(RecommendationName(Recommended(OverallOf(days))))
    requires c.raw.Given? && c.raw.value.dayScores == Some(rawDays)
    ensures SummaryHeld(days, rawDays, metadata, run)
  {
    SummaryInUnit(days);
    SummaryAcceptedOf(c, Recommended(OverallOf(days)), lower);
  }

  lemma SummaryFollows(days: seq<DayInput>, rawDays: seq<RawDay>, metadata: Metadata, run: Run,
                       lower: string -> string, shown: seq<ShownDay>)
    requires SummaryHeld(days, rawDays, metadata, run)
    ensures OverallShown(run, shown) == OverallOf(days) && ConfidenceShown(run) == ConfidenceOf(days)
    ensures RecommendationShown(run, lower) == SignalName(Recommended(OverallOf(days)))
  {
    SummaryIsShown(days);
  }

  /** All that is stored of an evaluation of the days. */
  ghost predicate Held(days: seq<DayInput>, disabled: set<int>, metadata: Metadata, done: Work, urlOk: string -> bool,
                       lower: string -> string) {
    var results := ResultsOf(Enabled(days, disabled));
    && (forall i | 0 <= i < |results| :: ResultAccepted(results[i]))
        && AllStored(EntriesFor(results), urlOk, done.scores)
    && AllReportsStored(ReportsFrom(Enabled(days, disabled), lower), urlOk, lower, done.reports)
    && SummaryHeld(Enabled(days, disabled), RawDays(days, disabled), metadata, done.run)
  }

  lemma EvaluationIsHeld(days: seq<DayInput>, disabled: set<int>, metadata: Metadata, begun: Work, done: Work,
                         world: World,
                         urlOk: string -> bool, lower: string -> string)
    requires LowersWell(lower) && begun.scores == [] && begun.reports == []
               && EvaluationUsable(EvaluationOfDays(days, disabled, lower))
    requires CompletedWith(begun, CompletionOf(EvaluationOfDays(days, disabled, lower), metadata), urlOk, lower, world,
                           done)
    ensures Held(days, disabled, metadata, done, urlOk, lower)
  {
    var c := CompletionOf(EvaluationOfDays(days, disabled, lower), metadata);
    NewRunStores(c, begun, done, world, urlOk, lower);
    SummaryIsHeld(Enabled(days, disabled), RawDays(days, disabled), c, metadata, done.run, begun.run, lower);
  }

  /** What is stored of the days is what the report shows of them. */
  lemma HeldIsShown(days: seq<DayInput>, disabled: set<int>, metadata: Metadata, done: Work, urlOk: string -> bool,
                    lower: string -> string, report: Composed)
    requires Rising(days) && DaysOk(days) && (forall day | day in disabled :: 1 <= day <= 5)
               && ListsDisabled(metadata, disabled)
    requires Held(days, disabled, metadata, done, urlOk, lower)
    requires Composes(done.run, done.scores, done.reports, lower, report)
    ensures ShowsInOrder(days, disabled, lower, report)
  {
    var enabled := Enabled(days, disabled);
    EnabledRises(days, disabled);
    RowsHoldTheDays(enabled, urlOk, done.scores);
    DaysLineUp(days, disabled, urlOk, done.scores, report.dayScores);
    ReviewersLineUp(enabled, urlOk, lower, done.reports);
    SummaryFollows(enabled, RawDays(days, disabled), metadata, done.run, lower, report.dayScores);
    DisabledAreListed(metadata, disabled);
    ReviewDaysAreDisabled(days, disabled, report.dayScores);
    assert ListedDays(done.run.metadata) + ReviewDays(report.dayScores) == disabled;
  }

  /** Evaluate deterministically, persist, compose: every input day is shown exactly once, in
      ascending order; an enabled one with the score and the number of pointers it was evaluated to,
      a disabled one as a placeholder for human review; and the disabled days are the bundle's. */
  lemma ReportShowsTheBundle(bundle: Bundle, metadata: Metadata, begun: Work, done: Work, world: World,
                             urlOk: string -> bool, lower: string -> string, report: Composed)
    requires BundleOk(bundle) && LowersWell(lower) && ListsDisabled(metadata, DisabledDays(bundle))
    requires begun.scores == [] && begun.reports == [] && EvaluationUsable(EvaluationOf(bundle, lower))
    requires CompletedWith(begun, CompletionOf(EvaluationOf(bundle, lower), metadata), urlOk, lower, world, done)
    requires Composes(done.run, done.scores, done.reports, lower, report)
    ensures ShowsBundle(bundle, lower, report)
  {
    DaysAreSorted(bundle);
    EvaluationIsHeld(Days(bundle), DisabledDays(bundle), metadata, begun, done, world, urlOk, lower);
    HeldIsShown(Days(bundle), DisabledDays(bundle), metadata, done, urlOk, lower, report);
  }

  lemma ReviewDaysAreDisabled(days: seq<DayInput>, disabled: set<int>, shown: seq<ShownDay>)
    requires |shown| == |days| && forall i | 0 <= i < |days| :: IsShown(days[i], disabled, shown[i])
    ensures ReviewDays(shown) <= disabled
  {
    forall day | day in ReviewDays(shown) ensures day in disabled {
      var i :| 0 <= i < |shown| && shown[i].ReviewDay? && shown[i].dayIndex == day;
      assert IsShown(days[i], disabled, shown[i]);
    }
  }

  /** The evaluation is the deterministic one of the bundle, and the metadata list its disabled days. */
  ghost predicate Evaluates(d: Delivery, bundle: Bundle) {
    && BundleOk(bundle) && AcceptsGithub(d.urlOk) && LowersWell(d.lower)
    && d.context.snapshotError.None? && d.context.evaluation == EvaluationOf(bundle, d.lower)
    && ListsDisabled(d.context.finalMetadata, DisabledDays(bundle))
  }

  /** The committed run of an answered delivery shows the bundle it evaluated. */
  lemma CommittedReportShowsTheBundle(before: Db, begun: Work, after: Db, d: Delivery, id: int, bundle: Bundle,
                                      report: Composed)
    requires id !in before.runs && Answered(before, begun, after, d, CompletedResponse(id)) && Evaluates(d, bundle)
    requires id in after.runs && Composes(after.runs[id], ScoresOf(after, id), ReportsOf(after, id), d.lower, report)
    ensures ShowsBundle(bundle, d.lower, report)
  {
    var c := CompletionOf(d.context.evaluation, d.context.finalMetadata);
    var work :| Commits(before, work, after) && work.id == begun.id
                && CompletedWith(begun, c, d.urlOk, d.lower, d.world, work.(marker := None, notice := false));
    var done := work.(marker := None, notice := false);
    assert after.runs[id] == done.run && ScoresOf(after, id) == done.scores && ReportsOf(after, id) == done.reports;
    ReportShowsTheBundle(bundle, d.context.finalMetadata, begun, done, d.world, d.urlOk, d.lower, report);
  }

  /** No completed run of the session sorts after the one this delivery would start. */
  predicate NoneNewer(db: Db, d: Delivery) {
    forall id | id in CompletedRuns(db, d.sessionId) ::
      var started := db.runs[id].startedAt;
      started < Whole(d.world.startClock) || (started == Whole(d.world.startClock) && id < d.nextId)
  }

  /** The report of the session is ready once the delivery has completed its new run, and it is that
      run's unless another session completed a newer one. */
  lemma DeliveredRunIsShown(before: Db, begun: Work, after: Db, d: Delivery, activeJob: bool)
    requires d.nextId !in before.runs && Answered(before, begun, after, d, CompletedResponse(d.nextId))
    ensures var shown := FetchStatus(after, d.sessionId, activeJob);
            shown.Ready? && shown.runId in after.runs && (NoneNewer(before, d) ==> shown.runId == d.nextId)
  {
    CompletedAnswerIsReady(before, begun, after, d, d.nextId, activeJob);
    RunOfDelivery(before, begun, after, d);
    ReadyMeansCompleted(after, d.sessionId, activeJob);
    var shown := FetchStatus(after, d.sessionId, activeJob).runId;
    if shown != d.nextId {
      assert shown in CompletedRuns(before, d.sessionId);
    }
  }

  lemma DeliveredCalmly(before: Db, others: Db, after: Db, d: Delivery, bundle: Bundle, r: Attempt<Response>)
    requires Processed(before, others, after, d, r) && RunsCalmly(before, others, d)
    requires Evaluates(d, bundle)
    ensures Truthful(others, after, d, r)
    ensures if AnyBlankRef(Enabled(Days(bundle), DisabledDays(bundle)))
            then r == Ok(FailedResponse(d.nextId, EvaluationCode(d.context.evaluation)))
            else r == Ok(CompletedResponse(d.nextId))
  {
    DeterministicIsAccepted(bundle, d.context.finalMetadata, d.urlOk, d.lower);
  }

  /** What the session's report shows right after a calm delivery of the bundle. */
  ghost predicate ReportsBundle(others: Db, d: Delivery, bundle: Bundle, shown: ReportStatus,
                                report: Option<Composed>) {
    && shown.Ready? && (NoneNewer(others, d) ==> shown.runId == d.nextId)
    && (shown.runId == d.nextId ==> report.Some? && ShowsBundle(bundle, d.lower, report.value))
  }

  lemma DeliveredIsReported(others: Db, begun: Work, after: Db, d: Delivery, bundle: Bundle, activeJob: bool,
                            report: Option<Composed>)
    requires d.nextId !in others.runs && Answered(others, begun, after, d, CompletedResponse(d.nextId))
    requires Evaluates(d, bundle)
    requires ReadsReport(after, d.lower, FetchStatus(after, d.sessionId, activeJob), report)
    ensures ReportsBundle(others, d, bundle, FetchStatus(after, d.sessionId, activeJob), report)
  {
    DeliveredRunIsShown(others, begun, after, d, activeJob);
    if FetchStatus(after, d.sessionId, activeJob).runId == d.nextId {
      CommittedReportShowsTheBundle(others, begun, after, d, d.nextId, bundle, report.value);
    }
  }

  /** The report is composed of the run the status names. */
  ghost predicate ReadsReport(db: Db, lower: string -> string, shown: ReportStatus, report: Option<Composed>) {
    if shown.Ready? then
      && shown.runId in db.runs && report.Some?
      && Composes(db.runs[shown.runId], ScoresOf(db, shown.runId), ReportsOf(db, shown.runId), lower, report.value)
    else report.None?
  }

  /** How a calm delivery of the bundle ends, and what the session's report shows then: the bundle,
      unless a blank reference made the run fail, or another session completed a newer run. */
  ghost predicate Reported(others: Db, after: Db, d: Delivery, bundle: Bundle, activeJob: bool, r: Attempt<Response>,
                           report: Option<Composed>) {
    if AnyBlankRef(Enabled(Days(bundle), DisabledDays(bundle)))
    then r == Ok(FailedResponse(d.nextId, EvaluationCode(d.context.evaluation)))
    else r == Ok(CompletedResponse(d.nextId))
         && ReportsBundle(others, d, bundle, FetchStatus(after, d.sessionId, activeJob), report)
  }

  lemma DeliveredAndRead(before: Db, others: Db, after: Db, d: Delivery, bundle: Bundle, r: Attempt<Response>,
                         activeJob: bool, report: Option<Composed>)
    requires Processed(before, others, after, d, r) && RunsCalmly(before, others, d) && d.nextId !in others.runs
    requires Evaluates(d, bundle) && ReadsReport(after, d.lower, FetchStatus(after, d.sessionId, activeJob), report)
    ensures Reported(others, after, d, bundle, activeJob, r, report)
  {
    DeliveredCalmly(before, others, after, d, bundle, r);
    if r == Ok(CompletedResponse(d.nextId)) {
      var begun :| Answered(others, begun, after, d, r.value);
      DeliveredIsReported(others, begun, after, d, bundle, activeJob, report);
    }
  }

  /** `fetch_winoe_report`: the status, and the report when it is ready. */
  method FetchReport(db: Db, sessionId: int, activeJob: bool, lower: string -> string)
    returns (shown: ReportStatus, report: Option<Composed>)
    ensures shown == FetchStatus(db, sessionId, activeJob) && ReadsReport(db, lower, shown, report)
  {
    shown := FetchStatus(db, sessionId, activeJob);
    if !shown.Ready? {
      return shown, None;
    }
    ReadyMeansCompleted(db, sessionId, activeJob);
    var id := shown.runId;
    var composed := ComposeReport(db.runs[id], ScoresOf(db, id), ReportsOf(db, id), lower);
    report := Some(composed);
  }

  /** Deliver a job, then read the report of its session. */
  method DeliverAndFetch(database: Database, d: Delivery, bundle: Bundle, others: Db, activeJob: bool)
    returns (r: Attempt<Response>, report: Option<Composed>)
    requires d.job.sessionId == Some(d.sessionId) && d.job.companyId == Some(d.context.companyId)
               && Evaluates(d, bundle)
    requires DbOk(database.committed) && DbOk(others) && Undisturbed(database.committed, others, d.job, d.nextId)
    requires Steady(d.world) && StartsPast(database.committed, d.world.startClock)
    modifies database
    ensures ReadsReport(database.committed, d.lower, FetchStatus(database.committed, d.sessionId, activeJob), report)
    ensures RunsCalmly(old(database.committed), others, d) ==>
              Reported(others, database.committed, d, bundle, activeJob, r, report)
  {
    ghost var before := database.committed;
    r := Process(database, d.world, d.job, Some(d.context), d.nextId, others, d.urlOk, d.lower);
    var shown;
    shown, report := FetchReport(database.committed, d.sessionId, activeJob, d.lower);
    if RunsCalmly(before, others, d) {
      DeliveredAndRead(before, others, database.committed, d, bundle, r, activeJob, report);
    }
  }

  /** End to end: evaluate a bundle, deliver its job, read the report of the job's session. */
  method DeliverAndReport(database: Database, job: Delivery, bundle: Bundle, others: Db, activeJob: bool)
    returns (d: Delivery, r: Attempt<Response>, report: Option<Composed>)
    requires job.job.sessionId == Some(job.sessionId) && job.job.companyId == Some(job.context.companyId)
    requires job.context.snapshotError.None?
    requires DbOk(database.committed) && DbOk(others) && Undisturbed(database.committed, others, job.job, job.nextId)
    requires Steady(job.world) && StartsPast(database.committed, job.world.startClock)
    requires BundleOk(bundle) && AcceptsGithub(job.urlOk) && LowersWell(job.lower)
    requires ListsDisabled(job.context.finalMetadata, DisabledDays(bundle))
    modifies database
    ensures d == job.(context := job.context.(evaluation := EvaluationOf(bundle, job.lower)))
    ensures RunsCalmly(old(database.committed), others, d) ==>
              Reported(others, database.committed, d, bundle, activeJob, r, report)
  {
    var evaluation := DeterministicEvaluator.Evaluate(bundle, job.lower);
    d := job.(context := job.context.(evaluation := evaluation));
    r, report := DeliverAndFetch(database, d, bundle, others, activeJob);
  }
}
