/**
 The evidence the evaluator gathers for one day, and that persistence accepts all of it.
 */
module EvaluatorEvidence {
  import opened Values
  import opened EvidencePointers
  import Text

  /** A transcript segment: the values under its start keys, its end keys and its text keys, each
      in the order the code looks them up. */
  datatype Segment = Segment(starts: seq<Value>, ends: seq<Value>, texts: seq<Value>)

  datatype DiffSummary = DiffSummary(base: Value, head: Value)

  datatype DayInput = DayInput(
    dayIndex: int,
    taskType: Option<string>,
    submissionId: Option<int>,
    contentText: Option<string>,
    contentJson: Option<string>,
    repoFullName: Option<string>,
    commitSha: Option<string>,
    cutoffCommitSha: Option<string>,
    workflowRunId: Option<string>,
    diffSummary: Option<DiffSummary>,
    testsPassed: Option<int>,
    testsFailed: Option<int>,
    transcriptReference: Option<string>,
    segments: seq<Segment>)

  // Helpers.

  /** `_to_excerpt` */
  function Excerpt(value: Option<string>, maxChars: nat): (r: Option<string>)
    ensures r.Some? ==> |r.value| <= maxChars && (maxChars > 0 ==> !Text.Blank(r.value))
    ensures r.None? <==> value.None? || Text.Blank(value.value)
  {
    if value.None? then None
    else
      var compact := Text.Compact(value.value);
      if compact == "" then None
      else
        var cut := compact[..Text.Min(maxChars, |compact|)];
        assert maxChars > 0 ==> !Text.IsSpace(cut[0]);
        Some(cut)
  }

  /** `int(value)` truncates toward zero. */
  function Truncated(r: real): int {
    if r >= 0.0 then r.Floor else -((-r).Floor)
  }

  function SafeInt(v: Value): Option<int> {
    match v
    case Int(i) => Some(i)
    case Real(r) => Some(Truncated(r))
    case _ => None
  }

  /** The first integer under the keys, not below zero. */
  function FirstMs(values: seq<Value>): (r: Option<int>)
    ensures r.Some? ==> r.value >= 0
  {
    if values == [] then None
    else if SafeInt(values[0]).Some? then
      Some(if SafeInt(values[0]).value < 0 then 0 else SafeInt(values[0]).value)
    else FirstMs(values[1..])
  }

  function FirstText(values: seq<Value>): Option<string> {
    if values == [] then None
    else if IsText(values[0]) then Some(values[0].s)
    else FirstText(values[1..])
  }

  predicate RepoChar(c: char) {
    'A' <= c <= 'Z' || 'a' <= c <= 'z' || '0' <= c <= '9' || c == '_' || c == '.' || c == '-'
  }

  /** `^[A-Za-z0-9_.-]+/[A-Za-z0-9_.-]+$` */
  predicate IsRepoName(s: string) {
    exists i | 0 < i < |s| - 1 :: s[i] == '/' && forall j | 0 <= j < |s| && j != i :: RepoChar(s[j])
  }

  function SafeRepo(repo: Option<string>): Option<string> {
    if repo.Some? && IsRepoName(Text.Strip(repo.value)) then Some(Text.Strip(repo.value)) else None
  }

  /** Python's `a or b` on optional strings: an empty string is false. */
  function OrText(a: Option<string>, b: Option<string>): string {
    if a.Some? && a.value != "" then a.value else if b.Some? then b.value else ""
  }

  /** `str(submission_id or f"day-{day_index}")` */
  function SubmissionRef(day: DayInput): string {
    if day.submissionId.Some? && day.submissionId.value != 0 then Text.Decimal(day.submissionId.value)
    else "day-" + Text.Decimal(day.dayIndex)
  }

  const GITHUB := "https://github.com/"

  function Item(kind: string, reference: string, url: Option<string>, excerpt: Option<string>): Pointer {
    Pointer(Some(Str(kind)), Some(Str(reference)), if url.Some? then Some(Str(url.value)) else None,
            if excerpt.Some? then Some(Str(excerpt.value)) else None, None, None, None, None, map[])
  }

  // Days 2 and 3.

  function CommitRef(day: DayInput): string {
    Text.Strip(OrText(day.cutoffCommitSha, day.commitSha))
  }

  function Url(repo: Option<string>, path: string): Option<string> {
    if repo.Some? then Some(GITHUB + repo.value + path) else None
  }

  function CommitExcerpt(day: DayInput): string {
    "Cutoff commit captured for day " + Text.Decimal(day.dayIndex) + "."
  }

  function CommitItems(day: DayInput): seq<Pointer> {
    if CommitRef(day) == "" then []
    else [Item("commit", CommitRef(day), Url(SafeRepo(day.repoFullName), "/commit/" + CommitRef(day)),
               Some(CommitExcerpt(day)))]
  }

  const DIFF_EXCERPT := "Code delta between base and submitted head commits."

  function DiffSpan(diff: DiffSummary): string
    requires diff.base.Str? && diff.head.Str?
  {
    diff.base.s + "..." + diff.head.s
  }

  function DiffItems(day: DayInput): seq<Pointer> {
    if day.diffSummary.Some? && day.diffSummary.value.base.Str? && day.diffSummary.value.head.Str? then
      var span := DiffSpan(day.diffSummary.value);
      [Item("diff", span, Url(SafeRepo(day.repoFullName), "/compare/" + span),
            Some(DIFF_EXCERPT))]
    else []
  }

  function Count(n: Option<int>): int {
    if n.Some? then n.value else 0
  }

  function TestRef(day: DayInput): string {
    if day.workflowRunId.Some? && day.workflowRunId.value != "" then day.workflowRunId.value else SubmissionRef(day)
  }

  function TestUrl(day: DayInput): Option<string> {
    if day.workflowRunId.Some? && !Text.Blank(day.workflowRunId.value)
    then Url(SafeRepo(day.repoFullName), "/actions/runs/" + Text.Strip(day.workflowRunId.value))
    else None
  }

  function TestExcerpt(day: DayInput): string {
    "Tests summary: passed=" + Text.Decimal(Count(day.testsPassed)) + ", failed="
        + Text.Decimal(Count(day.testsFailed)) + "."
  }

  function TestItems(day: DayInput): seq<Pointer> {
    if day.testsPassed.Some? || day.testsFailed.Some?
    then [Item("test", TestRef(day), TestUrl(day),
               Some(TestExcerpt(day)))]
    else []
  }

  /** `_build_code_day_evidence` appends up to three items. */
  method BuildCodeEvidence(day: DayInput) returns (evidence: seq<Pointer>)
    ensures evidence == CommitItems(day) + DiffItems(day) + TestItems(day)
  {
    evidence := [];
    var repo := SafeRepo(day.repoFullName);
    var commitRef := CommitRef(day);
    if commitRef != "" {
      var item := Item("commit", commitRef, None, Some(CommitExcerpt(day)));
      if repo.Some? {
        item := item.(url := Some(Str(GITHUB + repo.value + ("/commit/" + commitRef))));
      }
      evidence := evidence + [item];
    }
    if day.diffSummary.Some? && day.diffSummary.value.base.Str? && day.diffSummary.value.head.Str? {
      var span := DiffSpan(day.diffSummary.value);
      var item := Item("diff", span, None, Some(DIFF_EXCERPT));
      if repo.Some? {
        item := item.(url := Some(Str(GITHUB + repo.value + ("/compare/" + span))));
      }
      evidence := evidence + [item];
    }
    if day.testsPassed.Some? || day.testsFailed.Some? {
      var item := Item("test", TestRef(day), TestUrl(day),
                       Some(TestExcerpt(day)));
      evidence := evidence + [item];
    }
  }

  // Day 4.

  function TranscriptRef(day: DayInput): string {
    if day.transcriptReference.Some? && day.transcriptReference.value != "" then day.transcriptReference.value
    else if day.submissionId.Some? && day.submissionId.value != 0 then Text.Decimal(day.submissionId.value)
    else "transcript"
  }

  predicate Timed(s: Segment) {
    FirstMs(s.starts).Some? && FirstMs(s.ends).Some?
  }

  /** A backwards segment is cut to its start. */
  function TranscriptItem(reference: string, s: Segment): Pointer
    requires Timed(s)
  {
    var start, end := FirstMs(s.starts).value, FirstMs(s.ends).value;
    Item("transcript", reference, None, Excerpt(FirstText(s.texts), 220)).(
      startMs := Some(Int(start)), endMs := Some(Int(if end < start then start else end)))
  }

  function TranscriptItems(reference: string, segments: seq<Segment>): seq<Pointer> {
    if segments == [] then []
    else
      var front := TranscriptItems(reference, segments[..|segments| - 1]);
      var last := segments[|segments| - 1];
      if Timed(last) then front + [TranscriptItem(reference, last)] else front
  }

  function First(segments: seq<Segment>, n: nat): seq<Segment> {
    segments[..Text.Min(n, |segments|)]
  }

  /** `_build_transcript_day_evidence` */
  method BuildTranscriptEvidence(day: DayInput) returns (evidence: seq<Pointer>)
    ensures evidence == TranscriptItems(TranscriptRef(day), First(day.segments, 3))
  {
    evidence := [];
    var segments := First(day.segments, 3);
    for i := 0 to |segments|
      invariant evidence == TranscriptItems(TranscriptRef(day), segments[..i])
    {
      assert segments[..i + 1][..i] == segments[..i];
      var start, end := FirstMs(segments[i].starts), FirstMs(segments[i].ends);
      if start.Some? && end.Some? {
        var endMs := end.value;
        if endMs < start.value {
          endMs := start.value;
        }
        var item := Item("transcript", TranscriptRef(day), None, Excerpt(FirstText(segments[i].texts), 220));
        evidence := evidence + [item.(startMs := Some(Int(start.value)), endMs := Some(Int(endMs)))];
      }
    }
    assert segments[..|segments|] == segments;
  }

  // Every day.

  function ContentExcerpt(day: DayInput): Option<string> {
    var excerpt := Excerpt(day.contentText, 280);
    if excerpt.None? then Excerpt(day.contentJson, 280) else excerpt
  }

  function TextItems(day: DayInput): seq<Pointer> {
    if ContentExcerpt(day).None? then []
    else [Item("reflection", SubmissionRef(day), None, ContentExcerpt(day))]
  }

  function FallbackItems(day: DayInput): seq<Pointer> {
    [Item("reflection", SubmissionRef(day), None,
          Some("No substantive evidence was available for this day at evaluation time."))]
  }

  function GatheredEvidence(day: DayInput): seq<Pointer> {
    if day.dayIndex == 1 || day.dayIndex == 5 then TextItems(day)
    else if day.dayIndex == 2 || day.dayIndex == 3 then CommitItems(day) + DiffItems(day) + TestItems(day)
    else if day.dayIndex == 4 then TranscriptItems(TranscriptRef(day), First(day.segments, 3))
    else []
  }

  /** `_build_day_evidence`: what was gathered, else the fallback. */
  function DayEvidence(day: DayInput): seq<Pointer> {
    if GatheredEvidence(day) == [] then FallbackItems(day) else GatheredEvidence(day)
  }

  method BuildDayEvidence(day: DayInput) returns (evidence: seq<Pointer>)
    ensures evidence == DayEvidence(day)
  {
    evidence := [];
    if day.dayIndex == 1 || day.dayIndex == 5 {
      evidence := TextItems(day);
    } else if day.dayIndex == 2 || day.dayIndex == 3 {
      evidence := BuildCodeEvidence(day);
    } else if day.dayIndex == 4 {
      evidence := BuildTranscriptEvidence(day);
    }
    if evidence == [] {
      evidence := FallbackItems(day);
    }
  }

  lemma {:induction false} TranscriptItemsBound(reference: string, segments: seq<Segment>)
    ensures |TranscriptItems(reference, segments)| <= |segments|
    ensures forall p | p in TranscriptItems(reference, segments) ::
              exists s | s in segments :: Timed(s) && p == TranscriptItem(reference, s)
  {
    if segments != [] {
      TranscriptItemsBound(reference, segments[..|segments| - 1]);
    }
  }

  lemma EvidenceCount(day: DayInput)
    ensures 1 <= |DayEvidence(day)| <= 3
    ensures day.dayIndex == 1 || day.dayIndex == 5 ==> |DayEvidence(day)| == 1
  {
    TranscriptItemsBound(TranscriptRef(day), First(day.segments, 3));
  }

  // What persistence makes of it.

  /** A reference that is only white space, which the day's evidence would use. */
  predicate UsesBlankRef(day: DayInput) {
    || ((day.dayIndex == 2 || day.dayIndex == 3) && TestItems(day) != [] && Text.Blank(TestRef(day)))
    || (day.dayIndex == 4 && GatheredEvidence(day) != [] && Text.Blank(TranscriptRef(day)))
  }

  predicate OnGithub(url: string) {
    |GITHUB| <= |url| && url[..|GITHUB|] == GITHUB
  }

  lemma GithubIsText(url: string)
    requires OnGithub(url)
    ensures !Text.Blank(url)
  {
    assert url[0] == GITHUB[0];
    assert GITHUB[0] == 'h';
    assert !Text.IsSpace(url[0]);
  }

  /** The URL check accepts addresses under https://github.com/. */
  ghost predicate AcceptsGithub(urlOk: string -> bool) {
    forall url | OnGithub(url) :: urlOk(Text.Strip(url))
  }

  predicate KnownKind(kind: string) {
    kind == "commit" || kind == "diff" || kind == "test" || kind == "transcript" || kind == "reflection"
  }

  lemma KnownKindAccepted(kind: string)
    requires KnownKind(kind)
    ensures CheckedKind(Some(Str(kind))) == Accepted(Canonical(kind))
    ensures Canonical(kind) == "transcript" <==> kind == "transcript"
  {
    assert Text.Trimmed("commit") && Text.Trimmed("diff") && Text.Trimmed("test") && Text.Trimmed("transcript")
        && Text.Trimmed("reflection");
    assert "submission"[0] != "transcript"[0] && |"tests"| != |"transcript"|;
  }

  lemma UrlAccepted(url: Option<string>, urlOk: string -> bool)
    requires AcceptsGithub(urlOk) && (url.Some? ==> OnGithub(url.value))
    ensures CheckedUrl(if url.Some? then Some(Str(url.value)) else None, urlOk).Accepted?
  {
    if url.Some? {
      GithubIsText(url.value);
    }
  }

  lemma UrlOnGithub(repo: Option<string>, path: string)
    ensures Url(repo, path).Some? ==> OnGithub(Url(repo, path).value)
  {
    if repo.Some? {
      var url := GITHUB + repo.value + path;
      assert url == GITHUB + (repo.value + path);
    }
  }

  /** A built item is refused only for its reference. */
  lemma ItemAccepted(kind: string, reference: string, url: Option<string>, excerpt: Option<string>,
                     start: Option<Value>, end: Option<Value>, urlOk: string -> bool)
    requires KnownKind(kind)
    requires CheckedUrl(if url.Some? then Some(Str(url.value)) else None, urlOk).Accepted?
    requires kind == "transcript" ==> CheckedRange(start, end).Accepted?
    ensures NormalizedPointer(Item(kind, reference, url, excerpt).(startMs := start, endMs := end), urlOk).Accepted?
       <==> !Text.Blank(reference)
  {
    KnownKindAccepted(kind);
  }

  lemma PlainItemAccepted(kind: string, reference: string, url: Option<string>, excerpt: Option<string>,
                          urlOk: string -> bool)
    requires KnownKind(kind) && kind != "transcript"
    requires CheckedUrl(if url.Some? then Some(Str(url.value)) else None, urlOk).Accepted?
    ensures NormalizedPointer(Item(kind, reference, url, excerpt), urlOk).Accepted? <==> !Text.Blank(reference)
  {
    ItemAccepted(kind, reference, url, excerpt, None, None, urlOk);
    assert Item(kind, reference, url, excerpt).(startMs := None, endMs := None) == Item(kind, reference, url, excerpt);
  }

  lemma RefsAreText(day: DayInput)
    ensures !Text.Blank(SubmissionRef(day))
  {
    if !(day.submissionId.Some? && day.submissionId.value != 0) {
      assert SubmissionRef(day)[0] == "day-"[0] == 'd';
    }
  }

  predicate AllAccepted(pointers: seq<Pointer>, urlOk: string -> bool) {
    forall p | p in pointers :: NormalizedPointer(p, urlOk).Accepted?
  }

  lemma CommitItemsAccepted(day: DayInput, urlOk: string -> bool)
    requires AcceptsGithub(urlOk)
    ensures AllAccepted(CommitItems(day), urlOk)
  {
    if CommitRef(day) != "" {
      var path := "/commit/" + CommitRef(day);
      UrlOnGithub(SafeRepo(day.repoFullName), path);
      UrlAccepted(Url(SafeRepo(day.repoFullName), path), urlOk);
      PlainItemAccepted("commit", CommitRef(day), Url(SafeRepo(day.repoFullName), path), Some(CommitExcerpt(day)),
                        urlOk);
    }
  }

  lemma DiffItemsAccepted(day: DayInput, urlOk: string -> bool)
    requires AcceptsGithub(urlOk)
    ensures AllAccepted(DiffItems(day), urlOk)
  {
    if day.diffSummary.Some? && day.diffSummary.value.base.Str? && day.diffSummary.value.head.Str? {
      var span := DiffSpan(day.diffSummary.value);
      assert span[|day.diffSummary.value.base.s|] == "..."[0] == '.';
      UrlOnGithub(SafeRepo(day.repoFullName), "/compare/" + span);
      UrlAccepted(Url(SafeRepo(day.repoFullName), "/compare/" + span), urlOk);
      PlainItemAccepted("diff", span, Url(SafeRepo(day.repoFullName), "/compare/" + span), Some(DIFF_EXCERPT), urlOk);
    }
  }

  lemma TestItemsAccepted(day: DayInput, urlOk: string -> bool)
    requires AcceptsGithub(urlOk)
    ensures AllAccepted(TestItems(day), urlOk) <==> TestItems(day) == [] || !Text.Blank(TestRef(day))
  {
    if TestItems(day) != [] {
      if TestUrl(day).Some? {
        UrlOnGithub(SafeRepo(day.repoFullName), "/actions/runs/" + Text.Strip(day.workflowRunId.value));
      }
      UrlAccepted(TestUrl(day), urlOk);
      PlainItemAccepted("test", TestRef(day), TestUrl(day), Some(TestExcerpt(day)), urlOk);
    }
  }

  lemma TranscriptItemAccepted(reference: string, s: Segment, urlOk: string -> bool)
    requires Timed(s)
    ensures NormalizedPointer(TranscriptItem(reference, s), urlOk).Accepted? <==> !Text.Blank(reference)
  {
    var p := TranscriptItem(reference, s);
    ItemAccepted("transcript", reference, None, Excerpt(FirstText(s.texts), 220), p.startMs, p.endMs, urlOk);
  }

  lemma TranscriptItemsAccepted(reference: string, segments: seq<Segment>, urlOk: string -> bool)
    ensures AllAccepted(TranscriptItems(reference, segments), urlOk)
       <==> TranscriptItems(reference, segments) == [] || !Text.Blank(reference)
  {
    TranscriptItemsBound(reference, segments);
    var items := TranscriptItems(reference, segments);
    forall p | p in items ensures NormalizedPointer(p, urlOk).Accepted? <==> !Text.Blank(reference) {
      var s :| s in segments && Timed(s) && p == TranscriptItem(reference, s);
      TranscriptItemAccepted(reference, s, urlOk);
    }
    if items != [] {
      assert items[0] in items;
    }
  }

  lemma TextItemsAccepted(day: DayInput, urlOk: string -> bool)
    ensures AllAccepted(TextItems(day), urlOk) && AllAccepted(FallbackItems(day), urlOk)
  {
    RefsAreText(day);
    PlainItemAccepted("reflection", SubmissionRef(day), None, ContentExcerpt(day), urlOk);
    PlainItemAccepted("reflection", SubmissionRef(day), None,
                      Some("No substantive evidence was available for this day at evaluation time."), urlOk);
  }

  lemma AcceptedTogether(a: seq<Pointer>, b: seq<Pointer>, c: seq<Pointer>, urlOk: string -> bool)
    requires AllAccepted(a, urlOk) && AllAccepted(b, urlOk)
    ensures AllAccepted(a + b + c, urlOk) <==> AllAccepted(c, urlOk)
  {
    assert forall p | p in c :: p in a + b + c;
  }

  lemma CodeDayAccepted(day: DayInput, urlOk: string -> bool)
    requires AcceptsGithub(urlOk)
    ensures AllAccepted(CommitItems(day) + DiffItems(day) + TestItems(day), urlOk)
       <==> !(TestItems(day) != [] && Text.Blank(TestRef(day)))
  {
    CommitItemsAccepted(day, urlOk);
    DiffItemsAccepted(day, urlOk);
    TestItemsAccepted(day, urlOk);
    AcceptedTogether(CommitItems(day), DiffItems(day), TestItems(day), urlOk);
  }

  lemma GatheredAccepted(day: DayInput, urlOk: string -> bool)
    requires AcceptsGithub(urlOk)
    ensures AllAccepted(GatheredEvidence(day), urlOk) <==> !UsesBlankRef(day)
  {
    if day.dayIndex == 2 || day.dayIndex == 3 {
      CodeDayAccepted(day, urlOk);
    } else if day.dayIndex == 4 {
      TranscriptItemsAccepted(TranscriptRef(day), First(day.segments, 3), urlOk);
    } else {
      TextItemsAccepted(day, urlOk);
    }
  }

  /** Persistence accepts the evidence the evaluator builds for a day, unless it had to use a run
      id or transcript reference that is only white space. */
  lemma DayEvidenceAccepted(day: DayInput, urlOk: string -> bool)
    requires AcceptsGithub(urlOk)
    ensures AllAccepted(DayEvidence(day), urlOk) <==> !UsesBlankRef(day)
  {
    GatheredAccepted(day, urlOk);
    TextItemsAccepted(day, urlOk);
  }
}
