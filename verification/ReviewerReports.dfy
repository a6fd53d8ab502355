/**
 Reviewer reports on their way into the database. `lower` is Python's `str.lower`; everything
 holds for any function in its place.
 */
module ReviewerReports {
  import opened Values
  import opened EvidencePointers
  import opened DayScores
  import Text

  /** One entry of the payload. A `strengths` or `risks` that Python takes for false is Missing. */
  datatype ReportEntry = ReportEntry(
    dayIndex: Value,
    agentKey: Value,
    kind: Value,
    score: Value,
    dimensions: Field<Rubric>,
    evidence: Payload,
    assessment: Value,
    strengths: Field<seq<Value>>,
    risks: Field<seq<Value>>,
    raw: Field<Rubric>) | NotAReport

  datatype ReviewerReport = ReviewerReport(
    dayIndex: int,
    agentKey: string,
    kind: string,
    score: real,
    dimensions: Rubric,
    evidence: seq<Pointer>,
    assessment: string,
    strengths: seq<string>,
    risks: seq<string>,
    raw: Option<Rubric>)

  datatype Identity = Identity(dayIndex: int, agentKey: string, kind: string)

  function IdentityOf(row: ReviewerReport): Identity {
    Identity(row.dayIndex, row.agentKey, row.kind)
  }

  predicate DistinctReports(rows: seq<ReviewerReport>) {
    forall i, j | 0 <= i < j < |rows| :: IdentityOf(rows[i]) != IdentityOf(rows[j])
  }

  predicate TextsAccepted(list: Field<seq<Value>>) {
    !list.Malformed? && (list.Given? ==> forall i | 0 <= i < |list.value| :: IsText(list.value[i]))
  }

  predicate TextsStored(list: Field<seq<Value>>, texts: seq<string>) {
    if list.Given? then
      && |texts| == |list.value|
      && forall i | 0 <= i < |texts| :: IsText(list.value[i]) && texts[i] == Text.Strip(list.value[i].s)
    else texts == []
  }

  predicate ReportAccepted(e: ReportEntry, urlOk: string -> bool) {
    && e.ReportEntry?
    && CheckedDay(e.dayIndex).Accepted?
    && IsText(e.agentKey) && IsText(e.kind) && IsText(e.assessment)
    && CheckedScore(e.score).Accepted?
    && !e.dimensions.Malformed? && !e.raw.Malformed?
    && EvidenceAccepted(e.evidence, urlOk)
    && TextsAccepted(e.strengths) && TextsAccepted(e.risks)
  }

  predicate ReportStoredAs(e: ReportEntry, urlOk: string -> bool, lower: string -> string, row: ReviewerReport) {
    && e.ReportEntry?
    && CheckedDay(e.dayIndex) == Accepted(row.dayIndex)
    && IsText(e.agentKey) && row.agentKey == Text.Strip(e.agentKey.s)
    && IsText(e.kind) && row.kind == lower(Text.Strip(e.kind.s))
    && CheckedScore(e.score) == Accepted(row.score)
    && row.dimensions == (if e.dimensions.Given? then e.dimensions.value else map[])
    && e.evidence.Items? && Normalizes(e.evidence.items, urlOk, Accepted(row.evidence))
    && IsText(e.assessment) && row.assessment == Text.Strip(e.assessment.s)
    && TextsStored(e.strengths, row.strengths) && TextsStored(e.risks, row.risks)
    && row.raw == (if e.raw.Given? then Some(e.raw.value) else None)
  }

  // What becomes of one entry, check by check.

  function CheckedText(v: Value): Checked<string> {
    if IsText(v) then Accepted(Text.Strip(v.s)) else Refused(NotText)
  }

  function CheckedTexts(list: Field<seq<Value>>): Checked<seq<string>> {
    if !TextsAccepted(list) then Refused(NotText)
    else if list.Missing? then Accepted([])
    else Accepted(seq(|list.value|, i requires 0 <= i < |list.value| => Text.Strip(list.value[i].s)))
  }

  function CheckedObject(field: Field<Rubric>): Checked<Option<Rubric>> {
    match field
    case Missing => Accepted(None)
    case Malformed => Refused(ExpectedObject)
    case Given(value) => Accepted(Some(value))
  }

  function CheckedEvidence(evidence: Payload, urlOk: string -> bool): Checked<seq<Pointer>> {
    if evidence.NotAList? then Refused(ExpectedList) else NormalizedItems(evidence.items, urlOk)
  }

  function NormalizedReport(e: ReportEntry, urlOk: string -> bool, lower: string -> string): Checked<ReviewerReport> {
    if e.NotAReport? then Refused(ExpectedObject)
    else
      var day :- CheckedDay(e.dayIndex);
      var agentKey :- CheckedText(e.agentKey);
      var kind :- CheckedText(e.kind);
      var score :- CheckedScore(e.score);
      var dimensions :- CheckedObject(e.dimensions);
      var evidence :- CheckedEvidence(e.evidence, urlOk);
      var assessment :- CheckedText(e.assessment);
      var strengths :- CheckedTexts(e.strengths);
      var risks :- CheckedTexts(e.risks);
      var raw :- CheckedObject(e.raw);
      Accepted(ReviewerReport(day, agentKey, lower(kind), score, if dimensions.Some? then dimensions.value else map[],
                              evidence, assessment, strengths, risks, raw))
  }

  /** `_normalize_text_list` */
  method NormalizeTexts(list: Field<seq<Value>>) returns (r: Checked<seq<string>>)
    ensures if r.Accepted? then CheckedTexts(list) == r else CheckedTexts(list).Refused?
  {
    if list.Malformed? {
      return Refused(ExpectedList);
    }
    if list.Missing? {
      return Accepted([]);
    }
    var normalized: seq<string> := [];
    for i := 0 to |list.value|
      invariant |normalized| == i
      invariant forall j | 0 <= j < i :: IsText(list.value[j]) && normalized[j] == Text.Strip(list.value[j].s)
    {
      if !IsText(list.value[i]) {
        return Refused(NotText);
      }
      normalized := normalized + [Text.Strip(list.value[i].s)];
    }
    assert normalized == CheckedTexts(list).value;
    return Accepted(normalized);
  }

  lemma EvidenceMeans(evidence: Payload, urlOk: string -> bool)
    ensures CheckedEvidence(evidence, urlOk).Accepted? <==> EvidenceAccepted(evidence, urlOk)
    ensures CheckedEvidence(evidence, urlOk).Accepted? ==>
              Normalizes(evidence.items, urlOk, CheckedEvidence(evidence, urlOk))
  {
    if evidence.Items? {
      var items, check := evidence.items, ItemCheck(urlOk);
      CheckAllMeans(items, check);
      assert forall i | 0 <= i < |items| :: check(items[i]) == NormalizedItem(items[i], urlOk);
    }
  }

  lemma ReportAcceptedMeans(e: ReportEntry, urlOk: string -> bool, lower: string -> string)
    ensures NormalizedReport(e, urlOk, lower).Accepted? <==> ReportAccepted(e, urlOk)
  {
    if e.ReportEntry? {
      EvidenceMeans(e.evidence, urlOk);
    }
  }

  /** Each check gave what the row holds. */
  predicate ChecksGave(e: ReportEntry, urlOk: string -> bool, lower: string -> string, row: ReviewerReport) {
    && e.ReportEntry?
    && CheckedDay(e.dayIndex) == Accepted(row.dayIndex)
    && CheckedText(e.agentKey) == Accepted(row.agentKey)
    && CheckedText(e.kind).Accepted? && row.kind == lower(CheckedText(e.kind).value)
    && CheckedScore(e.score) == Accepted(row.score)
    && CheckedObject(e.dimensions).Accepted?
        && row.dimensions == (if e.dimensions.Given? then e.dimensions.value else map[])
    && CheckedEvidence(e.evidence, urlOk) == Accepted(row.evidence)
    && CheckedText(e.assessment) == Accepted(row.assessment)
    && CheckedTexts(e.strengths) == Accepted(row.strengths)
    && CheckedTexts(e.risks) == Accepted(row.risks)
    && CheckedObject(e.raw) == Accepted(row.raw)
  }

  lemma AcceptedGivesChecks(e: ReportEntry, urlOk: string -> bool, lower: string -> string, row: ReviewerReport)
    requires NormalizedReport(e, urlOk, lower) == Accepted(row)
    ensures ChecksGave(e, urlOk, lower, row)
  {
  }

  lemma TextsMean(list: Field<seq<Value>>)
    ensures CheckedTexts(list).Accepted? ==> TextsStored(list, CheckedTexts(list).value)
  {
  }

  /** Nothing of an accepted entry is lost. */
  lemma ReportStoredMeans(e: ReportEntry, urlOk: string -> bool, lower: string -> string, row: ReviewerReport)
    requires NormalizedReport(e, urlOk, lower) == Accepted(row)
    ensures ReportStoredAs(e, urlOk, lower, row)
  {
    AcceptedGivesChecks(e, urlOk, lower, row);
    ChecksStore(e, urlOk, lower, row);
  }

  lemma ChecksStore(e: ReportEntry, urlOk: string -> bool, lower: string -> string, row: ReviewerReport)
    requires ChecksGave(e, urlOk, lower, row)
    ensures ReportStoredAs(e, urlOk, lower, row)
  {
    EvidenceMeans(e.evidence, urlOk);
    TextsMean(e.strengths);
    TextsMean(e.risks);
  }

  method ValidateEvidence(evidence: Payload, urlOk: string -> bool) returns (r: Checked<seq<Pointer>>)
    ensures if r.Accepted? then CheckedEvidence(evidence, urlOk) == r else CheckedEvidence(evidence, urlOk).Refused?
  {
    r := ValidateEvidencePointers(evidence, urlOk);
    if evidence.Items? {
      NormalizesToOne(evidence.items, urlOk, r);
    }
  }

  method NormalizeReport(e: ReportEntry, urlOk: string -> bool, lower: string -> string)
    returns (r: Checked<ReviewerReport>)
    ensures if r.Accepted? then NormalizedReport(e, urlOk, lower) == r else NormalizedReport(e, urlOk, lower).Refused?
  {
    if e.NotAReport? {
      return Refused(ExpectedObject);
    }
    var day :- CheckedDay(e.dayIndex);
    var agentKey :- CheckedText(e.agentKey);
    var kind :- CheckedText(e.kind);
    var score :- CheckedScore(e.score);
    var dimensions :- CheckedObject(e.dimensions);
    var evidence :- ValidateEvidence(e.evidence, urlOk);
    var assessment :- CheckedText(e.assessment);
    var strengths :- NormalizeTexts(e.strengths);
    var risks :- NormalizeTexts(e.risks);
    var raw :- CheckedObject(e.raw);
    return Accepted(ReviewerReport(day, agentKey, lower(kind), score, if dimensions.Some? then dimensions.value
                                   else map[],
                                   evidence, assessment, strengths, risks, raw));
  }

  predicate AllReportsStored(payload: seq<ReportEntry>, urlOk: string -> bool, lower: string -> string,
                             rows: seq<ReviewerReport>) {
    |rows| == |payload| && forall i | 0 <= i < |rows| :: ReportStoredAs(payload[i], urlOk, lower, rows[i])
  }

  /** Two entries for the same day, agent and kind. */
  predicate SameIdentity(a: ReportEntry, b: ReportEntry, lower: string -> string) {
    && a.ReportEntry? && b.ReportEntry? && a.dayIndex == b.dayIndex
    && a.agentKey.Str? && b.agentKey.Str? && Text.Strip(a.agentKey.s) == Text.Strip(b.agentKey.s)
    && a.kind.Str? && b.kind.Str? && lower(Text.Strip(a.kind.s)) == lower(Text.Strip(b.kind.s))
  }

  predicate ReportsAccepted(payload: seq<ReportEntry>, urlOk: string -> bool, lower: string -> string) {
    && (forall i | 0 <= i < |payload| :: ReportAccepted(payload[i], urlOk))
    && (forall i, j | 0 <= i < j < |payload| :: !SameIdentity(payload[i], payload[j], lower))
  }

  lemma IdentitiesAgree(a: ReportEntry, b: ReportEntry, urlOk: string -> bool, lower: string -> string,
                        x: ReviewerReport, y: ReviewerReport)
    requires ReportStoredAs(a, urlOk, lower, x) && ReportStoredAs(b, urlOk, lower, y)
    ensures SameIdentity(a, b, lower) <==> IdentityOf(x) == IdentityOf(y)
  {
  }

  /** The rows so far, entry by entry. */
  predicate Fits(payload: seq<ReportEntry>, urlOk: string -> bool, lower: string -> string, rows: seq<ReviewerReport>) {
    |rows| <= |payload| && forall i | 0 <= i < |rows| :: NormalizedReport(payload[i], urlOk, lower) == Accepted(rows[i])
  }

  lemma FitsAreStored(payload: seq<ReportEntry>, urlOk: string -> bool, lower: string -> string,
                      rows: seq<ReviewerReport>)
    requires Fits(payload, urlOk, lower, rows) && |rows| == |payload| && DistinctReports(rows)
    ensures AllReportsStored(payload, urlOk, lower, rows) && ReportsAccepted(payload, urlOk, lower)
  {
    forall i | 0 <= i < |rows| ensures ReportAccepted(payload[i], urlOk)
        && ReportStoredAs(payload[i], urlOk, lower, rows[i]) {
      ReportAcceptedMeans(payload[i], urlOk, lower);
      ReportStoredMeans(payload[i], urlOk, lower, rows[i]);
    }
    forall i, j | 0 <= i < j < |payload| ensures !SameIdentity(payload[i], payload[j], lower) {
      IdentitiesAgree(payload[i], payload[j], urlOk, lower, rows[i], rows[j]);
    }
  }

  lemma BadReportIsRefused(payload: seq<ReportEntry>, urlOk: string -> bool, lower: string -> string, i: nat)
    requires i < |payload| && NormalizedReport(payload[i], urlOk, lower).Refused?
    ensures !ReportsAccepted(payload, urlOk, lower)
  {
    ReportAcceptedMeans(payload[i], urlOk, lower);
  }

  lemma DuplicateIsRefused(payload: seq<ReportEntry>, urlOk: string -> bool, lower: string -> string,
                           rows: seq<ReviewerReport>, row: ReviewerReport)
    requires |rows| < |payload| && Fits(payload, urlOk, lower, rows)
    requires NormalizedReport(payload[|rows|], urlOk, lower) == Accepted(row)
    requires exists j | 0 <= j < |rows| :: IdentityOf(rows[j]) == IdentityOf(row)
    ensures !ReportsAccepted(payload, urlOk, lower)
  {
    var j :| 0 <= j < |rows| && IdentityOf(rows[j]) == IdentityOf(row);
    ReportStoredMeans(payload[j], urlOk, lower, rows[j]);
    ReportStoredMeans(payload[|rows|], urlOk, lower, row);
    IdentitiesAgree(payload[j], payload[|rows|], urlOk, lower, rows[j], row);
  }

  /** `normalize_reviewer_report_payload`, with an empty payload allowed. */
  method NormalizeReports(payload: seq<ReportEntry>, urlOk: string -> bool, lower: string -> string)
    returns (r: Checked<seq<ReviewerReport>>)
    ensures r.Accepted? <==> ReportsAccepted(payload, urlOk, lower)
    ensures r.Accepted? ==> AllReportsStored(payload, urlOk, lower, r.value) && DistinctReports(r.value)
  {
    var normalized: seq<ReviewerReport> := [];
    var seen: set<Identity> := {};
    for i := 0 to |payload|
      invariant |normalized| == i && Fits(payload, urlOk, lower, normalized)
      invariant seen == set j | 0 <= j < i :: IdentityOf(normalized[j])
      invariant DistinctReports(normalized)
    {
      var row := NormalizeReport(payload[i], urlOk, lower);
      if row.Refused? {
        BadReportIsRefused(payload, urlOk, lower, i);
        return Refused(row.reason);
      }
      if IdentityOf(row.value) in seen {
        DuplicateIsRefused(payload, urlOk, lower, normalized, row.value);
        return Refused(Duplicate);
      }
      seen := seen + {IdentityOf(row.value)};
      normalized := normalized + [row.value];
    }
    FitsAreStored(payload, urlOk, lower, normalized);
    return Accepted(normalized);
  }

  /** A report for an identity that is stored already must repeat what is stored. */
  predicate Repeats(existing: seq<ReviewerReport>, row: ReviewerReport) {
    forall known | known in existing && IdentityOf(known) == IdentityOf(row) :: known == row
  }

  /** The rows not stored yet, in order. */
  function Fresh(existing: seq<ReviewerReport>, rows: seq<ReviewerReport>): (r: seq<ReviewerReport>)
    ensures forall row :: row in r <==> row in rows && row !in existing
    ensures existing == [] ==> r == rows
  {
    if rows == [] then []
    else
      var front, last := Fresh(existing, rows[..|rows| - 1]), rows[|rows| - 1];
      assert rows == rows[..|rows| - 1] + [last];
      if last in existing then front else front + [last]
  }

  predicate AllRepeat(existing: seq<ReviewerReport>, rows: seq<ReviewerReport>) {
    forall i | 0 <= i < |rows| :: Repeats(existing, rows[i])
  }

  /** The stored report with the same identity. */
  method Lookup(existing: seq<ReviewerReport>, row: ReviewerReport) returns (known: Option<ReviewerReport>)
    requires DistinctReports(existing)
    ensures known.None? ==> row !in existing && Repeats(existing, row)
    ensures known.Some? ==>
              (known.value == row <==> row in existing) && (known.value == row <==> Repeats(existing, row))
  {
    known := None;
    for i := 0 to |existing|
      invariant known.None? ==> forall j | 0 <= j < i :: IdentityOf(existing[j]) != IdentityOf(row)
      invariant known.Some? ==> known.value in existing && IdentityOf(known.value) == IdentityOf(row)
    {
      if IdentityOf(existing[i]) == IdentityOf(row) {
        known := Some(existing[i]);
      }
    }
  }

  /** The rows to write, unless one contradicts what is stored. */
  method Unmatched(existing: seq<ReviewerReport>, rows: seq<ReviewerReport>) returns (r: Checked<seq<ReviewerReport>>)
    requires DistinctReports(existing)
    ensures if r.Accepted? then AllRepeat(existing, rows) && r.value == Fresh(existing, rows)
              else !AllRepeat(existing, rows)
  {
    var created: seq<ReviewerReport> := [];
    for i := 0 to |rows|
      invariant created == Fresh(existing, rows[..i])
      invariant forall j | 0 <= j < i :: Repeats(existing, rows[j])
    {
      assert rows[..i + 1][..i] == rows[..i];
      var known := Lookup(existing, rows[i]);
      if known.None? {
        created := created + [rows[i]];
      } else if known.value != rows[i] {
        return Refused(Contradicts);
      }
    }
    assert rows[..|rows|] == rows;
    return Accepted(created);
  }

  /** `add_reviewer_reports` up to the flush: repeats are recognised, contradictions refused. */
  method NewReviewerReports(existing: seq<ReviewerReport>, payload: seq<ReportEntry>, urlOk: string -> bool,
                            lower: string -> string)
    returns (r: Checked<seq<ReviewerReport>>, ghost stored: seq<ReviewerReport>)
    requires DistinctReports(existing)
    ensures r.Accepted? ==> ReportsAccepted(payload, urlOk, lower) && AllReportsStored(payload, urlOk, lower, stored)
                            && AllRepeat(existing, stored) && DistinctReports(stored)
                                && r.value == Fresh(existing, stored)
    ensures r.Refused? && ReportsAccepted(payload, urlOk, lower) ==>
              AllReportsStored(payload, urlOk, lower, stored) && !AllRepeat(existing, stored)
    ensures existing == [] ==>
              (r.Accepted? <==> ReportsAccepted(payload, urlOk, lower)) && (r.Accepted? ==> r.value == stored)
  {
    stored := [];
    var entries := NormalizeReports(payload, urlOk, lower);
    if entries.Refused? {
      return entries, stored;
    }
    stored := entries.value;
    r := Unmatched(existing, entries.value);
  }
}
