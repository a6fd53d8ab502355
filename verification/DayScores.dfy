/**
 Day scores on their way into the database: the payload the pipeline hands over, the checks
 every entry must pass, and the rows that are written.
 */
module DayScores {
  import opened Values
  import opened EvidencePointers

  type Rubric = map<string, Value>

  /** One entry of the payload; `rubric` is None when it is not an object. */
  datatype Entry = Entry(dayIndex: Value, score: Value, rubric: Option<Rubric>, evidence: Payload) | NotAnEntry

  datatype DayScore = DayScore(dayIndex: int, score: real, rubric: Rubric, evidence: seq<Pointer>)

  // The scalar checks. Python's bool is an int and is refused explicitly; here it is another
  // constructor.

  function CheckedDay(v: Value): Checked<int> {
    if !v.Int? then Refused(NotAnInteger)
    else if v.i < 1 || v.i > 5 then Refused(OutOfRange)
    else Accepted(v.i)
  }

  function CheckedScore(v: Value): Checked<real> {
    match v
    case Int(i) => Accepted(i as real)
    case Real(r) => Accepted(r)
    case _ => Refused(NotNumeric)
  }

  /** `coerce_unit_interval_score` of an optional score. */
  function CheckedUnit(v: Value): Checked<Option<real>> {
    if v.Nil? then Accepted(None)
    else
      var r :- CheckedScore(v);
      if r < 0.0 || r > 1.0 then Refused(OutOfRange) else Accepted(Some(r))
  }

  predicate EvidenceAccepted(evidence: Payload, urlOk: string -> bool) {
    evidence.Items? && forall i | 0 <= i < |evidence.items| :: NormalizedItem(evidence.items[i], urlOk).Accepted?
  }

  predicate EntryAccepted(e: Entry, urlOk: string -> bool) {
    && e.Entry?
    && CheckedDay(e.dayIndex).Accepted?
    && CheckedScore(e.score).Accepted?
    && e.rubric.Some?
    && EvidenceAccepted(e.evidence, urlOk)
  }

  /** The row an accepted entry becomes: nothing lost, evidence normalized. */
  predicate StoredAs(e: Entry, urlOk: string -> bool, row: DayScore) {
    && e.Entry?
    && CheckedDay(e.dayIndex) == Accepted(row.dayIndex)
    && CheckedScore(e.score) == Accepted(row.score)
    && e.rubric == Some(row.rubric)
    && e.evidence.Items?
    && Normalizes(e.evidence.items, urlOk, Accepted(row.evidence))
  }

  predicate DistinctDays(rows: seq<DayScore>) {
    forall i, j | 0 <= i < j < |rows| :: rows[i].dayIndex != rows[j].dayIndex
  }

  predicate AllStored(payload: seq<Entry>, urlOk: string -> bool, rows: seq<DayScore>) {
    |rows| == |payload| && forall i | 0 <= i < |rows| :: StoredAs(payload[i], urlOk, rows[i])
  }

  /** Every entry passes its checks and no day comes twice. */
  predicate PayloadAccepted(payload: seq<Entry>, allowEmpty: bool, urlOk: string -> bool) {
    && (payload == [] ==> allowEmpty)
    && (forall i | 0 <= i < |payload| :: EntryAccepted(payload[i], urlOk))
    && (forall i, j | 0 <= i < j < |payload| :: payload[i].dayIndex != payload[j].dayIndex)
  }

  method NormalizeEntry(entry: Entry, urlOk: string -> bool) returns (r: Checked<DayScore>)
    ensures r.Accepted? <==> EntryAccepted(entry, urlOk)
    ensures r.Accepted? ==> StoredAs(entry, urlOk, r.value)
  {
    if entry.NotAnEntry? {
      return Refused(ExpectedObject);
    }
    var day := CheckedDay(entry.dayIndex);
    if day.Refused? { return Refused(day.reason); }
    var score := CheckedScore(entry.score);
    if score.Refused? { return Refused(score.reason); }
    if entry.rubric.None? {
      return Refused(ExpectedObject);
    }
    var evidence := ValidateEvidencePointers(entry.evidence, urlOk);
    if evidence.Refused? { return Refused(evidence.reason); }
    return Accepted(DayScore(day.value, score.value, entry.rubric.value, evidence.value));
  }

  /** `normalize_day_score_payload` */
  method NormalizeDayScores(payload: seq<Entry>, allowEmpty: bool, urlOk: string -> bool)
    returns (r: Checked<seq<DayScore>>)
    ensures r.Accepted? <==> PayloadAccepted(payload, allowEmpty, urlOk)
    ensures r.Accepted? ==> AllStored(payload, urlOk, r.value) && DistinctDays(r.value)
  {
    if payload == [] && !allowEmpty {
      return Refused(Empty);
    }
    var normalized: seq<DayScore> := [];
    var seen: set<int> := {};
    for i := 0 to |payload|
      invariant |normalized| == i
      invariant AllStored(payload[..i], urlOk, normalized)
      invariant forall j | 0 <= j < i :: EntryAccepted(payload[j], urlOk)
      invariant forall j | 0 <= j < i :: normalized[j].dayIndex in seen
      invariant forall day | day in seen :: exists j | 0 <= j < i :: payload[j].dayIndex == Int(day)
      invariant DistinctDays(normalized)
    {
      var row := NormalizeEntry(payload[i], urlOk);
      if row.Refused? {
        return Refused(row.reason);
      }
      if row.value.dayIndex in seen {
        return Refused(Duplicate);
      }
      seen := seen + {row.value.dayIndex};
      normalized := normalized + [row.value];
    }
    assert payload[..|payload|] == payload;
    return Accepted(normalized);
  }

  /** The scores a run has already, and the ones it gets, never share a day. */
  predicate Clashes(existing: seq<DayScore>, payload: seq<Entry>) {
    exists i, j | 0 <= i < |existing| && 0 <= j < |payload| ::
      payload[j].Entry? && payload[j].dayIndex == Int(existing[i].dayIndex)
  }

  /** `add_day_scores` up to the flush: the rows to add to a run that has `existing`. */
  method NewDayScores(existing: seq<DayScore>, payload: seq<Entry>, allowEmpty: bool, urlOk: string -> bool)
    returns (r: Checked<seq<DayScore>>)
    requires DistinctDays(existing)
    ensures r.Accepted? <==> PayloadAccepted(payload, allowEmpty, urlOk) && !Clashes(existing, payload)
    ensures r.Accepted? ==> AllStored(payload, urlOk, r.value) && DistinctDays(existing + r.value)
  {
    var entries := NormalizeDayScores(payload, allowEmpty, urlOk);
    if entries.Refused? || entries.value == [] {
      return entries;
    }
    var taken := set i | 0 <= i < |existing| :: existing[i].dayIndex;
    var created: seq<DayScore> := [];
    for i := 0 to |entries.value|
      invariant created == entries.value[..i]
      invariant forall j | 0 <= j < i :: entries.value[j].dayIndex !in taken
    {
      if entries.value[i].dayIndex in taken {
        return Refused(Duplicate);
      }
      created := created + [entries.value[i]];
    }
    assert forall i | 0 <= i < |existing| :: existing[i].dayIndex in taken;
    return Accepted(created);
  }
}
