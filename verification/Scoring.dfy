/**
 The deterministic score of a day, the aggregate over days, and the recommendation; with exact
 rationals in place of floating point.
 */
module Scoring {
  import opened Values
  import opened EvidencePointers
  import opened EvaluatorEvidence

  function MinReal(a: real, b: real): real {
    if a < b then a else b
  }

  function MaxReal(a: real, b: real): real {
    if a < b then b else a
  }

  /** The nearest multiple of 0.0001, ties to even. */
  function Nearest(t: real): int {
    var f := t.Floor;
    var d := t - f as real;
    if d < 0.5 || (d == 0.5 && f % 2 == 0) then f else f + 1
  }

  /** `round(x, 4)` */
  function Round4(x: real): real {
    Nearest(x * 10000.0) as real / 10000.0
  }

  lemma NearestIsMonotone(s: real, t: real)
    requires s <= t
    ensures Nearest(s) <= Nearest(t)
  {
  }

  /** Rounding preserves order and leaves four-decimal numbers alone. */
  lemma Round4Between(x: real, low: int, high: int)
    requires low as real / 10000.0 <= x <= high as real / 10000.0
    ensures low as real / 10000.0 <= Round4(x) <= high as real / 10000.0
  {
    NearestIsMonotone(low as real, x * 10000.0);
    NearestIsMonotone(x * 10000.0, high as real);
    assert Nearest(low as real) == low && Nearest(high as real) == high;
  }

  lemma Round4IsStable(x: real)
    ensures Round4(Round4(x)) == Round4(x)
  {
    var n := Nearest(x * 10000.0);
    assert n as real / 10000.0 * 10000.0 == n as real;
    assert Nearest(n as real) == n;
  }

  // `_score_for_day`

  function HasKind(evidence: seq<Pointer>, kind: string): bool {
    exists i | 0 <= i < |evidence| :: evidence[i].kind == Some(Str(kind))
  }

  function EvidencePart(evidence: seq<Pointer>): real {
    0.08 + MinReal(0.4, 0.12 * |evidence| as real)
  }

  function ContentPart(day: DayInput): real {
    if ContentExcerpt(day).Some? then MinReal(0.42, |ContentExcerpt(day).value| as real / 700.0) else 0.0
  }

  function PassRatio(day: DayInput): real {
    var total := Count(day.testsPassed) + Count(day.testsFailed);
    if total > 0 then Count(day.testsPassed) as real / total as real else 0.5
  }

  function CodePart(day: DayInput, evidence: seq<Pointer>): real {
    (if HasKind(evidence, "commit") then 0.2 else 0.0)
    + (if HasKind(evidence, "diff") then 0.12 else 0.0)
    + (if HasKind(evidence, "test") then 0.08 + 0.15 * PassRatio(day) else 0.0)
  }

  function TranscriptChars(segments: seq<Segment>): nat {
    if segments == [] then 0
    else
      var text := Excerpt(FirstText(segments[|segments| - 1].texts), 200);
      TranscriptChars(segments[..|segments| - 1]) + if text.Some? then |text.value| else 0
  }

  function TranscriptPart(day: DayInput): real {
    MinReal(0.5, TranscriptChars(First(day.segments, 4)) as real / 1200.0)
  }

  function RawScore(day: DayInput, evidence: seq<Pointer>): real {
    EvidencePart(evidence)
    + if day.dayIndex == 1 || day.dayIndex == 5 then ContentPart(day)
      else if day.dayIndex == 2 || day.dayIndex == 3 then CodePart(day, evidence)
      else if day.dayIndex == 4 then TranscriptPart(day)
      else 0.0
  }

  function Score(day: DayInput): real {
    Round4(Clamped(RawScore(day, DayEvidence(day))))
  }

  method CountTranscriptChars(segments: seq<Segment>) returns (chars: nat)
    ensures chars == TranscriptChars(segments)
  {
    chars := 0;
    for i := 0 to |segments|
      invariant chars == TranscriptChars(segments[..i])
    {
      assert segments[..i + 1][..i] == segments[..i];
      var text := Excerpt(FirstText(segments[i].texts), 200);
      chars := chars + if text.Some? then |text.value| else 0;
    }
    assert segments[..|segments|] == segments;
  }

  method ScoreCode(day: DayInput, evidence: seq<Pointer>, start: real) returns (score: real)
    ensures score == start + CodePart(day, evidence)
  {
    score := start;
    if HasKind(evidence, "commit") {
      score := score + 0.2;
    }
    if HasKind(evidence, "diff") {
      score := score + 0.12;
    }
    if HasKind(evidence, "test") {
      score := score + (0.08 + 0.15 * PassRatio(day));
    }
  }

  /** The score is accumulated part by part. */
  method AccumulateScore(day: DayInput, evidence: seq<Pointer>) returns (score: real)
    ensures score == RawScore(day, evidence)
  {
    score := EvidencePart(evidence);
    if day.dayIndex == 1 || day.dayIndex == 5 {
      var excerpt := ContentExcerpt(day);
      if excerpt.Some? {
        score := score + MinReal(0.42, |excerpt.value| as real / 700.0);
      }
    } else if day.dayIndex == 2 || day.dayIndex == 3 {
      score := ScoreCode(day, evidence, score);
    } else if day.dayIndex == 4 {
      var chars := CountTranscriptChars(First(day.segments, 4));
      if chars > 0 {
        score := score + MinReal(0.5, chars as real / 1200.0);
      }
    }
  }

  function Clamped(x: real): real {
    MaxReal(0.0, MinReal(1.0, x))
  }

  method ScoreForDay(day: DayInput, evidence: seq<Pointer>) returns (r: real)
    ensures r == Round4(Clamped(RawScore(day, evidence)))
  {
    var score := AccumulateScore(day, evidence);
    r := Round4(Clamped(score));
  }

  // Recommendation and aggregate.

  datatype Recommendation = StrongHire | Hire | LeanHire | NoHire

  function Recommended(score: real): Recommendation {
    if score >= 0.85 then StrongHire
    else if score >= 0.7 then Hire
    else if score >= 0.55 then LeanHire
    else NoHire
  }

  function Sum(xs: seq<real>): real {
    if xs == [] then 0.0 else Sum(xs[..|xs| - 1]) + xs[|xs| - 1]
  }

  /** `_aggregate_scores`: the mean score. */
  function Overall(scores: seq<real>): real {
    if scores == [] then 0.0 else Round4(Sum(scores) / |scores| as real)
  }

  /** ... and the confidence, from how much of three items a day the evidence covers. */
  function Confidence(days: nat, evidence: nat): real {
    if days == 0 then 0.0
    else Round4(MinReal(0.95, 0.45 + evidence as real / (days * 3) as real * 0.5))
  }

  lemma OverallIsRounded(scores: seq<real>)
    ensures Round4(Overall(scores)) == Overall(scores)
  {
    if scores != [] {
      Round4IsStable(Sum(scores) / |scores| as real);
    } else {
      Round4Between(0.0, 0, 0);
    }
  }

  lemma ConfidenceIsRounded(days: nat, evidence: nat)
    ensures Round4(Confidence(days, evidence)) == Confidence(days, evidence)
  {
    if days != 0 {
      var share := evidence as real / (days * 3) as real;
      Round4IsStable(MinReal(0.95, 0.45 + share * 0.5));
    } else {
      Round4Between(0.0, 0, 0);
    }
  }

  // Bounds.

  predicate CountsNotNegative(day: DayInput) {
    Count(day.testsPassed) >= 0 && Count(day.testsFailed) >= 0
  }

  /** The most a day can score, in ten-thousandths. */
  function Cap(dayIndex: int): int {
    if dayIndex == 1 || dayIndex == 5 then 6000
    else if dayIndex == 2 || dayIndex == 3 then 9900
    else 9400
  }

  lemma RatioBound(day: DayInput)
    requires CountsNotNegative(day)
    ensures 0.0 <= PassRatio(day) <= 1.0
  {
    var total := Count(day.testsPassed) + Count(day.testsFailed);
    if total > 0 {
      DivisionBound(Count(day.testsPassed) as real, total as real);
    }
  }

  lemma DivisionBound(a: real, b: real)
    requires 0.0 <= a <= b && b > 0.0
    ensures 0.0 <= a / b <= 1.0
  {
  }

  lemma EvidencePartBounds(evidence: seq<Pointer>)
    requires 1 <= |evidence| <= 3
    ensures 0.2 <= EvidencePart(evidence) <= 0.08 + 0.12 * |evidence| as real
  {
  }

  lemma CodePartBounds(day: DayInput, evidence: seq<Pointer>)
    requires CountsNotNegative(day)
    ensures 0.0 <= CodePart(day, evidence) <= 0.55
  {
    RatioBound(day);
  }

  lemma TranscriptPartBounds(day: DayInput)
    ensures 0.0 <= TranscriptPart(day) <= 0.5
  {
  }

  lemma ContentPartBounds(day: DayInput)
    ensures 0.0 <= ContentPart(day) <= 0.4
  {
  }

  lemma RawScoreBounds(day: DayInput, evidence: seq<Pointer>)
    requires 1 <= day.dayIndex <= 5 && CountsNotNegative(day)
    requires 1 <= |evidence| <= 3 && (day.dayIndex == 1 || day.dayIndex == 5 ==> |evidence| == 1)
    ensures 0.2 <= RawScore(day, evidence) <= Cap(day.dayIndex) as real / 10000.0
  {
    EvidencePartBounds(evidence);
    CodePartBounds(day, evidence);
    TranscriptPartBounds(day);
    ContentPartBounds(day);
  }

  /** Every day scores between 0.20 and its cap, whatever was submitted. */
  lemma ScoreBounds(day: DayInput)
    requires 1 <= day.dayIndex <= 5 && CountsNotNegative(day)
    ensures 0.2 <= Score(day) <= Cap(day.dayIndex) as real / 10000.0 <= 0.99
  {
    EvidenceCount(day);
    var raw := RawScore(day, DayEvidence(day));
    RawScoreBounds(day, DayEvidence(day));
    Round4Between(raw, 2000, Cap(day.dayIndex));
  }

  lemma {:induction false} SumBounds(xs: seq<real>, low: real, high: real)
    requires forall i | 0 <= i < |xs| :: low <= xs[i] <= high
    ensures low * |xs| as real <= Sum(xs) <= high * |xs| as real
  {
    if xs != [] {
      SumBounds(xs[..|xs| - 1], low, high);
    }
  }

  lemma MeanBounds(sum: real, n: nat, low: real, high: real)
    requires n > 0 && low * n as real <= sum <= high * n as real
    ensures low <= sum / n as real <= high
  {
  }

  function Scores(days: seq<DayInput>): (scores: seq<real>)
    ensures |scores| == |days|
    ensures forall i | 0 <= i < |days| :: scores[i] == Score(days[i])
  {
    seq(|days|, i requires 0 <= i < |days| => Score(days[i]))
  }

  predicate Evaluable(days: seq<DayInput>) {
    forall i | 0 <= i < |days| :: 1 <= days[i].dayIndex <= 5 && CountsNotNegative(days[i])
  }

  lemma OverallBetween(xs: seq<real>, low: int, high: int)
    requires xs != [] && forall i | 0 <= i < |xs| :: low as real / 10000.0 <= xs[i] <= high as real / 10000.0
    ensures low as real / 10000.0 <= Overall(xs) <= high as real / 10000.0
  {
    SumBounds(xs, low as real / 10000.0, high as real / 10000.0);
    MeanBounds(Sum(xs), |xs|, low as real / 10000.0, high as real / 10000.0);
    Round4Between(Sum(xs) / |xs| as real, low, high);
  }

  /** The mean of day scores lies between 0.20 and 0.99 again. */
  lemma OverallBounds(days: seq<DayInput>)
    requires Evaluable(days)
    ensures if days == [] then Overall(Scores(days)) == 0.0 else 0.2 <= Overall(Scores(days)) <= 0.99
  {
    if days != [] {
      forall i | 0 <= i < |days| ensures 0.2 <= Scores(days)[i] <= 0.99 {
        ScoreBounds(days[i]);
      }
      OverallBetween(Scores(days), 2000, 9900);
    }
  }

  /** Confidence lies between 0 and 0.95. */
  lemma ConfidenceBounds(days: nat, evidence: nat)
    ensures 0.0 <= Confidence(days, evidence) <= 0.95
  {
    if days > 0 {
      QuotientNotNegative(evidence as real, (days * 3) as real);
      Round4Between(MinReal(0.95, 0.45 + evidence as real / (days * 3) as real * 0.5), 0, 9500);
    }
  }

  lemma QuotientNotNegative(a: real, b: real)
    requires a >= 0.0 && b > 0.0
    ensures a / b >= 0.0
  {
  }

  lemma OverallOfFive(xs: seq<real>)
    requires |xs| == 5 && forall i | 0 <= i < 5 :: 0.0 <= xs[i] <= Cap(i + 1) as real / 10000.0
    ensures Overall(xs) <= 0.824 && Recommended(Overall(xs)) != StrongHire
  {
    SumOfFive(xs);
    assert xs[0] <= 0.6 && xs[1] <= 0.99 && xs[2] <= 0.99 && xs[3] <= 0.94 && xs[4] <= 0.6;
    var sum := Sum(xs);
    assert sum <= 4.12;
    Round4Between(sum / 5.0, 0, 8240);
  }

  lemma ScoreUnderCap(day: DayInput, dayIndex: int, score: real)
    requires 1 <= dayIndex <= 5 && day.dayIndex == dayIndex && CountsNotNegative(day) && score == Score(day)
    ensures 0.0 <= score <= Cap(dayIndex) as real / 10000.0
  {
    ScoreBounds(day);
  }

  /** With all five days scored the mean is at most 0.824, so a strong hire cannot happen. */
  lemma NoStrongHireOverFiveDays(days: seq<DayInput>)
    requires Evaluable(days) && |days| == 5 && forall i | 0 <= i < 5 :: days[i].dayIndex == i + 1
    ensures Overall(Scores(days)) <= 0.824 && Recommended(Overall(Scores(days))) != StrongHire
  {
    var xs := Scores(days);
    forall i | 0 <= i < 5 ensures 0.0 <= xs[i] <= Cap(i + 1) as real / 10000.0 {
      ScoreUnderCap(days[i], i + 1, xs[i]);
    }
    OverallOfFive(xs);
  }

  lemma SumOfFive(xs: seq<real>)
    requires |xs| == 5
    ensures Sum(xs) == xs[0] + xs[1] + xs[2] + xs[3] + xs[4]
  {
    assert xs[..4][..3] == xs[..3] && xs[..3][..2] == xs[..2] && xs[..2][..1] == xs[..1] && xs[..1][..0] == [];
    assert Sum(xs[..1]) == Sum([]) + xs[0];
    assert Sum(xs[..2]) == Sum(xs[..1]) + xs[1];
    assert Sum(xs[..3]) == Sum(xs[..2]) + xs[2];
    assert Sum(xs[..4]) == Sum(xs[..3]) + xs[3];
  }

  /** A code day with a commit, a diff, and every test passing. */
  predicate FullCodeDay(day: DayInput) {
    && (day.dayIndex == 2 || day.dayIndex == 3)
    && CommitRef(day) != ""
    && day.diffSummary.Some? && day.diffSummary.value.base.Str? && day.diffSummary.value.head.Str?
    && Count(day.testsPassed) > 0 && Count(day.testsFailed) == 0
  }

  lemma FullCodeEvidence(day: DayInput)
    requires FullCodeDay(day)
    ensures var evidence := DayEvidence(day);
            && |evidence| == 3
            && evidence[0].kind == Some(Str("commit")) && evidence[1].kind == Some(Str("diff"))
                && evidence[2].kind == Some(Str("test"))
  {
  }

  lemma AllPassed(passed: int)
    requires passed > 0
    ensures passed as real / (passed + 0) as real == 1.0
  {
  }

  lemma HasKindAt(evidence: seq<Pointer>, i: nat, kind: string)
    requires i < |evidence| && evidence[i].kind == Some(Str(kind))
    ensures HasKind(evidence, kind)
  {
  }

  lemma FullRawScore(day: DayInput, evidence: seq<Pointer>)
    requires FullCodeDay(day) && |evidence| == 3
    requires evidence[0].kind == Some(Str("commit")) && evidence[1].kind == Some(Str("diff"))
               && evidence[2].kind == Some(Str("test"))
    ensures RawScore(day, evidence) == 0.99
  {
    AllPassed(Count(day.testsPassed));
    assert PassRatio(day) == 1.0;
    HasKindAt(evidence, 0, "commit");
    HasKindAt(evidence, 1, "diff");
    HasKindAt(evidence, 2, "test");
    assert CodePart(day, evidence) == 0.2 + 0.12 + 0.08 + 0.15;
    assert EvidencePart(evidence) == 0.44;
  }

  lemma FullCodeScore(day: DayInput)
    requires FullCodeDay(day)
    ensures Score(day) == 0.99
  {
    FullCodeEvidence(day);
    FullRawScore(day, DayEvidence(day));
    Round4Between(0.99, 9900, 9900);
  }

  /** A strong hire takes a bundle without the other days: code days alone reach the bound. */
  lemma StrongHireOnCodeDays(days: seq<DayInput>)
    requires days != [] && forall i | 0 <= i < |days| :: FullCodeDay(days[i])
    ensures Overall(Scores(days)) == 0.99 && Recommended(Overall(Scores(days))) == StrongHire
  {
    forall i | 0 <= i < |days| ensures Scores(days)[i] == 0.99 {
      FullCodeScore(days[i]);
    }
    OverallBetween(Scores(days), 9900, 9900);
  }
}
