/**
 What each evidence item of a day refers to, said of the day as submitted.
 */
module EvidenceLaws {
  import opened Values
  import opened EvidencePointers
  import opened EvaluatorEvidence
  import opened ScoreLaws
  import Text

  predicate OfKind(p: Pointer, kind: string) {
    p.kind == Some(Str(kind))
  }

  /** A page of the repository, when its name is of the form owner/name. */
  function Page(day: DayInput, path: string): Option<Value> {
    if day.repoFullName.Some? && IsRepoName(Text.Strip(day.repoFullName.value))
    then Some(Str("https://github.com/" + Text.Strip(day.repoFullName.value) + path))
    else None
  }

  /** The number of the submission, else that of the day. */
  function Submission(day: DayInput): string {
    if day.submissionId.Some? && day.submissionId.value != 0 then Text.Decimal(day.submissionId.value)
    else "day-" + Text.Decimal(day.dayIndex)
  }

  /** The item for the commit: the one the day was cut off at, else the one submitted. */
  predicate CommitSays(day: DayInput, p: Pointer) {
    p.reference == Some(Str(Text.Strip(Sha(day)))) && p.url == Page(day, "/commit/" + Text.Strip(Sha(day)))
  }

  /** The item for the difference between the two commits. */
  predicate DiffSays(day: DayInput, p: Pointer)
    requires HasDiff(day)
  {
    var span := day.diffSummary.value.base.s + "..." + day.diffSummary.value.head.s;
    p.reference == Some(Str(span)) && p.url == Page(day, "/compare/" + span)
  }

  /** The item for the tests: the run's number, else the submission. */
  predicate TestSays(day: DayInput, p: Pointer) {
    var run := if day.workflowRunId.Some? then day.workflowRunId.value else "";
    && p.reference == Some(Str(if run != "" then run else Submission(day)))
    && p.url == (if Text.Blank(run) then None else Page(day, "/actions/runs/" + Text.Strip(run)))
    && p.excerpt == Some(Str("Tests summary: passed=" + Text.Decimal(Passed(day)) + ", failed="
                             + Text.Decimal(Failed(day)) + "."))
  }

  lemma UrlIsPage(day: DayInput, path: string)
    ensures Page(day, path)
         == if Url(SafeRepo(day.repoFullName), path).Some? then Some(Str(Url(SafeRepo(day.repoFullName), path).value))
            else None
  {
  }

  lemma CodeItemsSay(day: DayInput)
    ensures forall p | p in CommitItems(day) :: CommitSays(day, p)
    ensures HasDiff(day) ==> forall p | p in DiffItems(day) :: DiffSays(day, p)
    ensures forall p | p in TestItems(day) :: TestSays(day, p)
  {
    assert CommitRef(day) == Text.Strip(Sha(day));
    UrlIsPage(day, "/commit/" + CommitRef(day));
    if HasDiff(day) {
      UrlIsPage(day, "/compare/" + DiffSpan(day.diffSummary.value));
    }
    if day.workflowRunId.Some? {
      UrlIsPage(day, "/actions/runs/" + Text.Strip(day.workflowRunId.value));
    }
  }

  /** On a code day there is an item for a commit, a diff and tests exactly when the day has them, and it
      refers to them. */
  lemma CodeEvidenceSays(day: DayInput, p: Pointer)
    requires (day.dayIndex == 2 || day.dayIndex == 3) && p in DayEvidence(day)
    ensures OfKind(p, "commit") ==> HasCommit(day) && CommitSays(day, p)
    ensures OfKind(p, "diff") ==> HasDiff(day) && DiffSays(day, p)
    ensures OfKind(p, "test") ==> HasTests(day) && TestSays(day, p)
    ensures OfKind(p, "commit") || OfKind(p, "diff") || OfKind(p, "test") || Kinds(day) == 0
  {
    KindsDiffer();
    ItemsOf(day);
    CodeItemsSay(day);
    ItemsApart(day, p);
  }

  lemma ItemsApart(day: DayInput, p: Pointer)
    requires (day.dayIndex == 2 || day.dayIndex == 3) && p in DayEvidence(day)
    ensures OfKind(p, "commit") ==> p in CommitItems(day)
    ensures OfKind(p, "diff") ==> p in DiffItems(day)
    ensures OfKind(p, "test") ==> p in TestItems(day)
    ensures OfKind(p, "commit") || OfKind(p, "diff") || OfKind(p, "test") || Kinds(day) == 0
  {
    KindsDiffer();
    ItemsOf(day);
    FallbackKind(day);
    if GatheredEvidence(day) == [] {
      assert CommitItems(day) == [] && DiffItems(day) == [] && TestItems(day) == [];
      assert FallbackItems(day)[0] == p;
    }
  }

  // Text days.

  /** A text day has one item, for the submission: the first 280 characters of what counts of its text,
      or a note that there is none. */
  lemma TextEvidenceSays(day: DayInput)
    requires day.dayIndex == 1 || day.dayIndex == 5
    ensures |DayEvidence(day)| == 1
    ensures var p := DayEvidence(day)[0];
            && OfKind(p, "reflection") && p.reference == Some(Str(Submission(day))) && p.url == None
            && p.excerpt == Some(Str(
                 if Text.Blank(Content(day))
                 then "No substantive evidence was available for this day at evaluation time."
                 else Text.Compact(Content(day))[..Counted(Content(day), 280)]))
  {
    ContentSays(day);
  }

  lemma ContentSays(day: DayInput)
    ensures ContentExcerpt(day) ==
              if Text.Blank(Content(day)) then None
              else Some(Text.Compact(Content(day))[..Counted(Content(day), 280)])
  {
    ExcerptSays(day.contentText, 280);
    ExcerptSays(day.contentJson, 280);
  }

  lemma ExcerptSays(value: Option<string>, most: nat)
    ensures Excerpt(value, most) ==
              if value.Some? && !Text.Blank(value.value)
              then Some(Text.Compact(value.value)[..Counted(value.value, most)]) else None
  {
  }

  // The transcript day.

  /** The first number under the keys, zero when it is negative; JSON's true and false are no numbers. */
  function Milliseconds(values: seq<Value>): Option<int> {
    if values == [] then None
    else match values[0]
      case Int(i) => Some(if i < 0 then 0 else i)
      case Real(r) => Some(if r < 0.0 then 0 else r.Floor)
      case _ => Milliseconds(values[1..])
  }

  lemma {:induction false} MillisecondsAreFirst(values: seq<Value>)
    ensures FirstMs(values) == Milliseconds(values)
  {
    if values != [] {
      MillisecondsAreFirst(values[1..]);
      match values[0] {
        case Real(r) => assert r < 0.0 ==> Truncated(r) <= 0;
        case _ =>
      }
    }
  }

  /** The item quotes the segment, over its time; one that ends before it starts is cut to its start. */
  predicate SegmentSays(day: DayInput, segment: Segment, p: Pointer) {
    var start, end := Milliseconds(segment.starts), Milliseconds(segment.ends);
    && start.Some? && end.Some? && OfKind(p, "transcript") && p.url == None
    && p.startMs == Some(Int(start.value))
    && p.endMs == Some(Int(if start.value <= end.value then end.value else start.value))
    && p.reference == Some(Str(
         if day.transcriptReference.Some? && day.transcriptReference.value != "" then day.transcriptReference.value
         else if day.submissionId.Some? && day.submissionId.value != 0 then Text.Decimal(day.submissionId.value)
         else "transcript"))
  }

  lemma ItemSays(day: DayInput, segment: Segment)
    requires Timed(segment)
    ensures SegmentSays(day, segment, TranscriptItem(TranscriptRef(day), segment))
  {
    MillisecondsAreFirst(segment.starts);
    MillisecondsAreFirst(segment.ends);
  }

  /** Each item of the transcript day is for one of the first three segments, or there is none. */
  lemma TranscriptEvidenceSays(day: DayInput, p: Pointer)
    requires day.dayIndex == 4 && p in DayEvidence(day)
    ensures (exists k | 0 <= k < |day.segments| && k < 3 :: SegmentSays(day, day.segments[k], p))
         || DayEvidence(day) == FallbackItems(day)
  {
    var segments := First(day.segments, 3);
    TranscriptItemsBound(TranscriptRef(day), segments);
    if GatheredEvidence(day) != [] {
      var s :| s in segments && Timed(s) && p == TranscriptItem(TranscriptRef(day), s);
      ItemSays(day, s);
      var k :| 0 <= k < |segments| && segments[k] == s;
      assert day.segments[k] == s;
    }
  }
}
