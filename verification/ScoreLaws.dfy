/**
 What the deterministic score rewards, and what each recommendation stands for: said of the submitted
 days and of the names in the evaluation, with the numbers written out.
 */
module ScoreLaws {
  import opened Values
  import opened EvidencePointers
  import opened EvaluatorEvidence
  import opened RunTable
  import opened Pipeline
  import opened Scoring
  import opened DeterministicEvaluator
  import Report
  import ReportRoundTrip
  import Text

  // Recommendations.

  lemma NamesDiffer()
    ensures "strong_hire" != "hire" && "strong_hire" != "lean_hire" && "strong_hire" != "no_hire"
    ensures "hire" != "lean_hire" && "hire" != "no_hire" && "lean_hire" != "no_hire"
  {
    assert |"strong_hire"| == 11 && |"hire"| == 4 && |"lean_hire"| == 9 && |"no_hire"| == 7;
  }

  lemma SignalsDiffer()
    ensures "strong_signal" != "positive_signal" && "strong_signal" != "mixed_signal"
              && "strong_signal" != "limited_signal"
    ensures "positive_signal" != "mixed_signal" && "positive_signal" != "limited_signal"
    ensures "mixed_signal" != "limited_signal"
  {
    assert |"strong_signal"| == 13 && |"positive_signal"| == 15 && |"mixed_signal"| == 12 && |"limited_signal"| == 14;
  }

  /** Each recommendation is given exactly in its interval of the overall score. */
  lemma RecommendationByInterval(bundle: Bundle, lower: string -> string)
    ensures var r := EvaluationOf(bundle, lower);
            && r.Evaluated? && r.overall.Real?
            && (r.recommendation == Str("strong_hire") <==> 0.85 <= r.overall.r)
            && (r.recommendation == Str("hire") <==> 0.7 <= r.overall.r < 0.85)
            && (r.recommendation == Str("lean_hire") <==> 0.55 <= r.overall.r < 0.7)
            && (r.recommendation == Str("no_hire") <==> r.overall.r < 0.55)
  {
    NamesDiffer();
  }

  /** From the worst to the best. */
  function Rank(name: Value): int {
    if name == Str("strong_hire") then 3
    else if name == Str("hire") then 2
    else if name == Str("lean_hire") then 1
    else if name == Str("no_hire") then 0
    else -1
  }

  /** A higher overall score never gets a lower recommendation, and there is always one of the four. */
  lemma HigherIsNoWorse(a: Bundle, b: Bundle, lower: string -> string)
    requires EvaluationOf(a, lower).overall.r <= EvaluationOf(b, lower).overall.r
    ensures 0 <= Rank(EvaluationOf(a, lower).recommendation) <= Rank(EvaluationOf(b, lower).recommendation)
  {
    RecommendationByInterval(a, lower);
    RecommendationByInterval(b, lower);
    NamesDiffer();
  }

  /** The report of a bundle names the signal of the interval its overall score is in. */
  lemma SignalByInterval(bundle: Bundle, lower: string -> string, report: Report.Composed)
    requires ReportRoundTrip.ShowsBundle(bundle, lower, report)
    ensures (report.recommendation == "strong_signal" <==> 0.85 <= report.overall)
         && (report.recommendation == "positive_signal" <==> 0.7 <= report.overall < 0.85)
         && (report.recommendation == "mixed_signal" <==> 0.55 <= report.overall < 0.7)
         && (report.recommendation == "limited_signal" <==> report.overall < 0.55)
  {
    SignalsDiffer();
  }

  // Rounding.

  /** Equal up to half a ten-thousandth. */
  predicate Near(a: real, b: real) {
    -0.00005 <= a - b <= 0.00005
  }

  lemma RoundsNear(x: real)
    ensures Near(Round4(x), x)
  {
    var n := Nearest(x * 10000.0);
    assert -0.5 <= n as real - x * 10000.0 <= 0.5;
  }

  lemma RoundKeepsOrder(x: real, y: real)
    requires x <= y
    ensures Round4(x) <= Round4(y)
  {
    NearestIsMonotone(x * 10000.0, y * 10000.0);
  }

  /** The overall score is the mean, up to rounding. */
  lemma OverallIsTheMean(scores: seq<real>)
    requires scores != []
    ensures Near(Overall(scores), Sum(scores) / |scores| as real)
  {
    RoundsNear(Sum(scores) / |scores| as real);
  }

  /** Confidence is 0.45 and half the share of three items a day, 0.95 at most, up to rounding. */
  lemma ConfidenceIsCoverage(days: nat, evidence: nat)
    requires days > 0
    ensures var share := evidence as real / (3 * days) as real;
            Near(Confidence(days, evidence), if share <= 1.0 then 0.45 + 0.5 * share else 0.95)
  {
    var share := evidence as real / (days * 3) as real;
    assert days * 3 == 3 * days;
    RoundsNear(MinReal(0.95, 0.45 + share * 0.5));
  }

  // Code days.

  /** The commit the day was cut off at, else the one submitted. */
  function Sha(day: DayInput): string {
    if day.cutoffCommitSha.Some? && day.cutoffCommitSha.value != "" then day.cutoffCommitSha.value
    else if day.commitSha.Some? then day.commitSha.value
    else ""
  }

  predicate HasCommit(day: DayInput) {
    !Text.Blank(Sha(day))
  }

  predicate HasDiff(day: DayInput) {
    day.diffSummary.Some? && day.diffSummary.value.base.Str? && day.diffSummary.value.head.Str?
  }

  predicate HasTests(day: DayInput) {
    day.testsPassed.Some? || day.testsFailed.Some?
  }

  function One(b: bool): int {
    if b then 1 else 0
  }

  function Passed(day: DayInput): int {
    if day.testsPassed.Some? then day.testsPassed.value else 0
  }

  function Failed(day: DayInput): int {
    if day.testsFailed.Some? then day.testsFailed.value else 0
  }

  predicate IsCodeDay(day: DayInput) {
    (day.dayIndex == 2 || day.dayIndex == 3) && Passed(day) >= 0 && Failed(day) >= 0
  }

  /** The share of tests that passed, or a half when none ran. */
  function Ratio(passed: int, failed: int): real {
    if passed + failed > 0 then passed as real / (passed + failed) as real else 0.5
  }

  /** A code day: 0.08, 0.12 for each kind of evidence (of which there is at least one, if only the
      fallback), 0.2 for a commit, 0.12 for a diff, and 0.08 and 0.15 times the pass ratio for tests. */
  function CodeScore(day: DayInput): real {
    0.08 + 0.12 * (if Kinds(day) == 0 then 1 else Kinds(day)) as real
    + (if HasCommit(day) then 0.2 else 0.0) + (if HasDiff(day) then 0.12 else 0.0)
    + (if HasTests(day) then 0.08 + 0.15 * Ratio(Passed(day), Failed(day)) else 0.0)
  }

  predicate AllOf(items: seq<Pointer>, kind: string) {
    forall i | 0 <= i < |items| :: items[i].kind == Some(Str(kind))
  }

  lemma ItemsOf(day: DayInput)
    ensures |CommitItems(day)| == One(HasCommit(day)) && AllOf(CommitItems(day), "commit")
    ensures |DiffItems(day)| == One(HasDiff(day)) && AllOf(DiffItems(day), "diff")
    ensures |TestItems(day)| == One(HasTests(day)) && AllOf(TestItems(day), "test")
  {
    assert CommitRef(day) == Text.Strip(Sha(day));
  }

  lemma KindsTogether(a: seq<Pointer>, b: seq<Pointer>, c: seq<Pointer>, x: string, y: string, z: string)
    requires AllOf(a, x) && AllOf(b, y) && AllOf(c, z) && x != y && x != z && y != z
    ensures HasKind(a + b + c, x) <==> a != []
    ensures HasKind(a + b + c, y) <==> b != []
    ensures HasKind(a + b + c, z) <==> c != []
  {
    var all := a + b + c;
    if a != [] { assert all[0].kind == Some(Str(x)); }
    if b != [] { assert all[|a|].kind == Some(Str(y)); }
    if c != [] { assert all[|a| + |b|].kind == Some(Str(z)); }
  }

  lemma FallbackKind(day: DayInput)
    ensures !HasKind(FallbackItems(day), "commit") && !HasKind(FallbackItems(day), "diff")
         && !HasKind(FallbackItems(day), "test") && |FallbackItems(day)| == 1
  {
    KindsDiffer();
  }

  function Kinds(day: DayInput): int {
    One(HasCommit(day)) + One(HasDiff(day)) + One(HasTests(day))
  }

  lemma KindsOf(day: DayInput)
    requires day.dayIndex == 2 || day.dayIndex == 3
    ensures var evidence := DayEvidence(day);
            && |evidence| == (if Kinds(day) == 0 then 1 else Kinds(day))
            && (HasKind(evidence, "commit") <==> HasCommit(day))
            && (HasKind(evidence, "diff") <==> HasDiff(day))
            && (HasKind(evidence, "test") <==> HasTests(day))
  {
    ItemsOf(day);
    KindsDiffer();
    KindsTogether(CommitItems(day), DiffItems(day), TestItems(day), "commit", "diff", "test");
    FallbackKind(day);
  }

  lemma KindsDiffer()
    ensures "commit" != "diff" && "commit" != "test" && "diff" != "test"
    ensures "reflection" != "commit" && "reflection" != "diff" && "reflection" != "test"
  {
    assert |"commit"| == 6 && |"diff"| == 4 && |"test"| == 4 && |"reflection"| == 10;
    assert "diff"[0] != "test"[0];
  }

  lemma RatioIs(day: DayInput)
    requires IsCodeDay(day)
    ensures PassRatio(day) == Ratio(Passed(day), Failed(day))
  {
  }

  lemma EvidencePartIs(evidence: seq<Pointer>)
    requires |evidence| <= 3
    ensures EvidencePart(evidence) == 0.08 + 0.12 * |evidence| as real
  {
  }

  lemma CodePartIs(day: DayInput, evidence: seq<Pointer>)
    requires IsCodeDay(day)
    requires HasKind(evidence, "commit") <==> HasCommit(day)
    requires HasKind(evidence, "diff") <==> HasDiff(day)
    requires HasKind(evidence, "test") <==> HasTests(day)
    ensures CodePart(day, evidence)
         == (if HasCommit(day) then 0.2 else 0.0) + (if HasDiff(day) then 0.12 else 0.0)
            + (if HasTests(day) then 0.08 + 0.15 * Ratio(Passed(day), Failed(day)) else 0.0)
  {
    RatioIs(day);
  }

  lemma CodeRawOf(day: DayInput, evidence: seq<Pointer>)
    requires IsCodeDay(day) && |evidence| == (if Kinds(day) == 0 then 1 else Kinds(day))
    requires HasKind(evidence, "commit") <==> HasCommit(day)
    requires HasKind(evidence, "diff") <==> HasDiff(day)
    requires HasKind(evidence, "test") <==> HasTests(day)
    ensures RawScore(day, evidence) == CodeScore(day)
  {
    CodePartIs(day, evidence);
    EvidencePartIs(evidence);
    RawIsSum(day, evidence);
  }

  lemma RawIsSum(day: DayInput, evidence: seq<Pointer>)
    requires day.dayIndex == 2 || day.dayIndex == 3
    ensures RawScore(day, evidence) == EvidencePart(evidence) + CodePart(day, evidence)
  {
  }

  lemma CodeRaw(day: DayInput)
    requires IsCodeDay(day)
    ensures RawScore(day, DayEvidence(day)) == CodeScore(day)
  {
    KindsOf(day);
    CodeRawOf(day, DayEvidence(day));
  }

  lemma CodeScoreBounds(day: DayInput)
    requires IsCodeDay(day)
    ensures 0.2 <= CodeScore(day) <= 0.99
  {
    CodeRaw(day);
    EvidenceCount(day);
    RawScoreBounds(day, DayEvidence(day));
  }

  lemma CodeScoreIs(day: DayInput)
    requires IsCodeDay(day)
    ensures Near(Score(day), CodeScore(day)) && Score(day) == Round4(CodeScore(day))
  {
    CodeRaw(day);
    CodeScoreBounds(day);
    RoundsNear(CodeScore(day));
  }

  lemma RatioKeepsOrder(a: int, b: int, total: int)
    requires 0 <= a <= b <= total
    ensures Ratio(a, total - a) <= Ratio(b, total - b)
  {
    if total > 0 {
      DivideKeepsOrder(a as real, b as real, total as real);
    }
  }

  lemma DivideKeepsOrder(a: real, b: real, c: real)
    requires a <= b && c > 0.0
    ensures a / c <= b / c
  {
  }

  /** More tests passed of the same total never lower the score of a code day. */
  lemma MorePassesNeverLower(day: DayInput, passed: int, failed: int)
    requires IsCodeDay(day) && HasTests(day)
    requires Passed(day) <= passed && 0 <= failed && passed + failed == Passed(day) + Failed(day)
    ensures Score(day) <= Score(day.(testsPassed := Some(passed), testsFailed := Some(failed)))
  {
    var better := day.(testsPassed := Some(passed), testsFailed := Some(failed));
    var total := passed + failed;
    RatioKeepsOrder(Passed(day), passed, total);
    assert total - Passed(day) == Failed(day) && total - passed == failed;
    assert CodeScore(day) <= CodeScore(better);
    CodeScoreIs(day);
    CodeScoreIs(better);
    RoundKeepsOrder(CodeScore(day), CodeScore(better));
  }

  /** A commit raises the score of a code day that had none, by a fifth at least. */
  lemma CommitRaises(day: DayInput, sha: string)
    requires IsCodeDay(day) && !HasCommit(day) && !Text.Blank(sha)
    ensures Score(day.(cutoffCommitSha := Some(sha))) >= Score(day) + 0.1999
  {
    var better := day.(cutoffCommitSha := Some(sha));
    assert sha != "" && HasCommit(better);
    assert CodeScore(better) >= CodeScore(day) + 0.2;
    CodeScoreIs(day);
    CodeScoreIs(better);
  }

  /** A diff raises it by 0.12 at least. */
  lemma DiffRaises(day: DayInput, base: string, head: string)
    requires IsCodeDay(day) && !HasDiff(day)
    ensures Score(day.(diffSummary := Some(DiffSummary(Str(base), Str(head))))) >= Score(day) + 0.1199
  {
    var better := day.(diffSummary := Some(DiffSummary(Str(base), Str(head))));
    assert HasDiff(better);
    assert CodeScore(better) >= CodeScore(day) + 0.12;
    CodeScoreIs(day);
    CodeScoreIs(better);
  }

  // Text days.

  /** What counts of a text: its words, single spaces between, 280 characters at most. */
  function Counted(text: string, most: nat): nat {
    if |Text.Compact(text)| < most then |Text.Compact(text)| else most
  }

  /** The text of the day, else its document, when it is not blank. */
  function Content(day: DayInput): string {
    if day.contentText.Some? && !Text.Blank(day.contentText.value) then day.contentText.value
    else if day.contentJson.Some? then day.contentJson.value
    else ""
  }

  function TextValue(counted: nat): real {
    0.2 + counted as real / 700.0
  }

  /** A text day: 0.2, and a share of 0.4 for up to 280 characters. */
  lemma TextScoreIs(day: DayInput)
    requires day.dayIndex == 1 || day.dayIndex == 5
    ensures var value := TextValue(Counted(Content(day), 280));
            Near(Score(day), value) && Score(day) == Round4(value)
  {
    var value := TextValue(Counted(Content(day), 280));
    EvidenceCount(day);
    RawOfText(day);
    assert 0.2 <= value <= 0.6;
    RoundsNear(value);
  }

  lemma ExcerptLength(value: Option<string>, most: nat)
    requires most > 0
    ensures var excerpt := Excerpt(value, most);
            if value.Some? && !Text.Blank(value.value)
            then excerpt.Some? && |excerpt.value| == Counted(value.value, most)
            else excerpt.None?
  {
  }

  lemma RawOfText(day: DayInput)
    requires day.dayIndex == 1 || day.dayIndex == 5
    ensures RawScore(day, DayEvidence(day)) == TextValue(Counted(Content(day), 280))
  {
    ExcerptLength(day.contentText, 280);
    ExcerptLength(day.contentJson, 280);
    EvidenceCount(day);
    assert EvidencePart(DayEvidence(day)) == 0.2;
  }

  /** Text added at the end takes no word away. */
  lemma {:induction false} CompactGrows(text: string, more: string)
    ensures |Text.Compact(text)| <= |Text.Compact(text + more)|
    decreases |text|
  {
    if text != "" {
      if Text.IsSpace(text[0]) {
        assert (text + more)[1..] == text[1..] + more;
        CompactGrows(text[1..], more);
      } else {
        var word := Text.Word(text);
        WordOfMore(text, more);
        if |word| < |text| {
          assert (text + more)[|word|..] == text[|word|..] + more;
          CompactGrows(text[|word|..], more);
        }
      }
    }
  }

  lemma {:induction false} WordOfMore(text: string, more: string)
    ensures if |Text.Word(text)| < |text| then Text.Word(text + more) == Text.Word(text)
            else |Text.Word(text + more)| >= |text|
  {
    if text != "" && !Text.IsSpace(text[0]) {
      assert (text + more)[1..] == text[1..] + more;
      WordOfMore(text[1..], more);
    }
  }

  lemma TextValueKeepsOrder(a: nat, b: nat)
    requires a <= b
    ensures Round4(TextValue(a)) <= Round4(TextValue(b))
  {
    DivideKeepsOrder(a as real, b as real, 700.0);
    RoundKeepsOrder(TextValue(a), TextValue(b));
  }

  lemma CountedGrows(day: DayInput, text: string, more: string)
    requires day.contentText == Some(text) && (!Text.Blank(text) || day.contentJson.None?)
    ensures Counted(Content(day), 280) <= Counted(Content(day.(contentText := Some(text + more))), 280)
  {
    var longer := day.(contentText := Some(text + more));
    if !Text.Blank(text) {
      CompactGrows(text, more);
      assert Content(day) == text;
      assert Text.Compact(text) != "" && Text.Compact(text + more) != "";
      assert Content(longer) == text + more;
    } else {
      assert Content(day) == "";
      assert Text.Compact("") == "";
    }
  }

  /** A longer text never lowers the score of a text day. */
  lemma LongerTextNeverLowers(day: DayInput, text: string, more: string)
    requires day.dayIndex == 1 || day.dayIndex == 5
    requires day.contentText == Some(text) && (!Text.Blank(text) || day.contentJson.None?)
    ensures Score(day) <= Score(day.(contentText := Some(text + more)))
  {
    var longer := day.(contentText := Some(text + more));
    CountedGrows(day, text, more);
    TextScoreIs(day);
    TextScoreIs(longer);
    TextValueKeepsOrder(Counted(Content(day), 280), Counted(Content(longer), 280));
  }

  // The transcript day.

  /** The first text under the keys that is not blank. */
  function SpokenText(texts: seq<Value>): string {
    if texts == [] then ""
    else if texts[0].Str? && !Text.Blank(texts[0].s) then texts[0].s
    else SpokenText(texts[1..])
  }

  lemma {:induction false} SpokenIsFirst(texts: seq<Value>)
    ensures FirstText(texts) == if Text.Blank(SpokenText(texts)) then None else Some(SpokenText(texts))
  {
    if texts != [] {
      SpokenIsFirst(texts[1..]);
    }
  }

  /** What counts of the segments, 200 characters of each at most. */
  function SpokenChars(segments: seq<Segment>): nat {
    if segments == [] then 0 else Counted(SpokenText(segments[0].texts), 200) + SpokenChars(segments[1..])
  }

  lemma {:induction false} SpokenMore(segments: seq<Segment>, last: Segment)
    ensures SpokenChars(segments + [last]) == SpokenChars(segments) + Counted(SpokenText(last.texts), 200)
  {
    if segments == [] {
      assert segments + [last] == [last];
    } else {
      assert (segments + [last])[1..] == segments[1..] + [last];
      SpokenMore(segments[1..], last);
    }
  }

  lemma SegmentCounts(s: Segment)
    ensures var text := Excerpt(FirstText(s.texts), 200);
            (if text.Some? then |text.value| else 0) == Counted(SpokenText(s.texts), 200)
  {
    SpokenIsFirst(s.texts);
    ExcerptLength(FirstText(s.texts), 200);
  }

  lemma CharsOfLast(segments: seq<Segment>)
    requires segments != []
    ensures var n := |segments| - 1;
            TranscriptChars(segments) == TranscriptChars(segments[..n]) + Counted(SpokenText(segments[n].texts), 200)
  {
    SegmentCounts(segments[|segments| - 1]);
  }

  lemma SpokenOfLast(segments: seq<Segment>)
    requires segments != []
    ensures var n := |segments| - 1;
            SpokenChars(segments) == SpokenChars(segments[..n]) + Counted(SpokenText(segments[n].texts), 200)
  {
    var n := |segments| - 1;
    SpokenMore(segments[..n], segments[n]);
    assert segments[..n] + [segments[n]] == segments;
  }

  lemma {:induction false} SpokenCharsCounted(segments: seq<Segment>)
    ensures TranscriptChars(segments) == SpokenChars(segments)
  {
    if segments != [] {
      SpokenCharsCounted(segments[..|segments| - 1]);
      CharsOfLast(segments);
      SpokenOfLast(segments);
    }
  }

  /** How many of the segments have a start and an end. */
  function TimedCount(segments: seq<Segment>): nat {
    if segments == [] then 0 else TimedCount(segments[..|segments| - 1]) + One(Timed(segments[|segments| - 1]))
  }

  lemma {:induction false} TimedAreItems(reference: string, segments: seq<Segment>)
    ensures |TranscriptItems(reference, segments)| == TimedCount(segments)
  {
    if segments != [] {
      TimedAreItems(reference, segments[..|segments| - 1]);
    }
  }

  function AtMost(segments: seq<Segment>, n: nat): seq<Segment> {
    if |segments| <= n then segments else segments[..n]
  }

  /** A transcript day: 0.08, 0.12 for each timed segment of the first three (of which there counts one
      at least), and up to a half for the text of the first four. */
  function TranscriptValue(day: DayInput): real {
    var timed, chars := TimedCount(AtMost(day.segments, 3)), SpokenChars(AtMost(day.segments, 4));
    0.08 + 0.12 * (if timed == 0 then 1 else timed) as real
    + if chars < 600 then chars as real / 1200.0 else 0.5
  }

  lemma TranscriptEvidenceCounts(day: DayInput)
    requires day.dayIndex == 4
    ensures var timed := TimedCount(AtMost(day.segments, 3)); |DayEvidence(day)| == if timed == 0 then 1 else timed
  {
    TimedAreItems(TranscriptRef(day), AtMost(day.segments, 3));
    assert First(day.segments, 3) == AtMost(day.segments, 3);
  }

  lemma TranscriptRaw(day: DayInput)
    requires day.dayIndex == 4
    ensures RawScore(day, DayEvidence(day)) == TranscriptValue(day)
  {
    TranscriptEvidenceCounts(day);
    EvidenceCount(day);
    EvidencePartIs(DayEvidence(day));
    assert First(day.segments, 4) == AtMost(day.segments, 4);
    SpokenCharsCounted(AtMost(day.segments, 4));
    CappedShare(SpokenChars(AtMost(day.segments, 4)));
  }

  lemma CappedShare(chars: nat)
    ensures MinReal(0.5, chars as real / 1200.0) == if chars < 600 then chars as real / 1200.0 else 0.5
  {
  }

  lemma TranscriptScoreIs(day: DayInput)
    requires day.dayIndex == 4
    ensures Near(Score(day), TranscriptValue(day)) && Score(day) == Round4(TranscriptValue(day))
  {
    TranscriptRaw(day);
    TranscriptEvidenceCounts(day);
    EvidenceCount(day);
    assert 0.0 <= TranscriptValue(day) <= 1.0;
    RoundsNear(TranscriptValue(day));
  }

  lemma TranscriptKeepsOrder(chars: nat, more: nat)
    requires chars <= more
    ensures (if chars < 600 then chars as real / 1200.0 else 0.5) <= (if more < 600 then more as real / 1200.0 else 0.5)
  {
    DivideKeepsOrder(chars as real, more as real, 1200.0);
    if chars < 600 {
      DivideKeepsOrder(chars as real, 600.0, 1200.0);
    }
  }

  lemma TranscriptValuesKeepOrder(a: DayInput, b: DayInput)
    requires SpokenChars(AtMost(a.segments, 4)) <= SpokenChars(AtMost(b.segments, 4))
    requires TimedCount(AtMost(a.segments, 3)) <= TimedCount(AtMost(b.segments, 3))
    ensures TranscriptValue(a) <= TranscriptValue(b)
  {
    TranscriptKeepsOrder(SpokenChars(AtMost(a.segments, 4)), SpokenChars(AtMost(b.segments, 4)));
  }

  /** More text or more timed segments never lower the score of a transcript day. */
  lemma MoreSpokenNeverLowers(a: DayInput, b: DayInput)
    requires a.dayIndex == 4 && b.dayIndex == 4
    requires SpokenChars(AtMost(a.segments, 4)) <= SpokenChars(AtMost(b.segments, 4))
    requires TimedCount(AtMost(a.segments, 3)) <= TimedCount(AtMost(b.segments, 3))
    ensures Score(a) <= Score(b)
  {
    TranscriptValuesKeepOrder(a, b);
    TranscriptScoreIs(a);
    TranscriptScoreIs(b);
    RoundKeepsOrder(TranscriptValue(a), TranscriptValue(b));
  }
}
