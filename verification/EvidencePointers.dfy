/**
 Evidence pointers: what persistence accepts and stores (`validate_evidence_pointers`), and
 what the report shows of a stored pointer (`_sanitize_evidence`). `urlOk` is the check
 `urllib.parse` makes of a URL; everything holds for any such check.
 */
module EvidencePointers {
  import opened Values
  import Text

  /** One pointer object. A field is None when the key is absent; `rest` holds the other keys. */
  datatype Pointer = Pointer(
    kind: Option<Value>,
    reference: Option<Value>,
    url: Option<Value>,
    excerpt: Option<Value>,
    quote: Option<Value>,
    dayIndex: Option<Value>,
    startMs: Option<Value>,
    endMs: Option<Value>,
    rest: map<string, Value>)

  datatype Item = Object(pointer: Pointer) | NotAnObject

  datatype Payload = Items(items: seq<Item>) | NotAList

  const ALLOWED_KINDS: set<string> := {"submission", "diff", "transcript", "tests", "rubric", "commit"}

  function Canonical(kind: string): string {
    if kind == "reflection" then "submission" else if kind == "test" then "tests" else kind
  }

  /** `item.get(key)` */
  function Get(field: Option<Value>): Value {
    if field.Some? then field.value else Nil
  }

  predicate IsText(v: Value) {
    v.Str? && !Text.Blank(v.s)
  }

  // The field validators.

  function CheckedKind(field: Option<Value>): Checked<string> {
    var v := Get(field);
    if !IsText(v) then Refused(NotText)
    else if Canonical(Text.Strip(v.s)) !in ALLOWED_KINDS then Refused(UnknownKind)
    else Accepted(Canonical(Text.Strip(v.s)))
  }

  function CheckedRef(field: Option<Value>): Checked<string> {
    var v := Get(field);
    if !IsText(v) then Refused(NotText) else Accepted(Text.Strip(v.s))
  }

  function CheckedUrl(field: Option<Value>, urlOk: string -> bool): Checked<Option<Value>> {
    var v := Get(field);
    if v == Nil then Accepted(field)
    else if !IsText(v) || !urlOk(Text.Strip(v.s)) then Refused(BadUrl)
    else Accepted(Some(Str(Text.Strip(v.s))))
  }

  /** The excerpt, or the quote when there is no excerpt. */
  function CheckedExcerpt(excerpt: Option<Value>, quote: Option<Value>): Checked<Option<Value>> {
    var v := if Get(excerpt) == Nil then Get(quote) else Get(excerpt);
    if v != Nil && !v.Str? then Refused(NotText)
    else if IsText(v) then Accepted(Some(Str(Text.Strip(v.s))))
    else Accepted(excerpt)
  }

  function CheckedInt(v: Value): Checked<int> {
    if v.Int? && v.i >= 0 then Accepted(v.i) else Refused(NotAnInteger)
  }

  function CheckedDayIndex(field: Option<Value>): Checked<Option<Value>> {
    if Get(field) == Nil then Accepted(field)
    else
      var day :- CheckedInt(Get(field));
      if 1 <= day <= 5 then Accepted(Some(Int(day))) else Refused(OutOfRange)
  }

  datatype Range = Range(start: Option<Value>, end: Option<Value>)

  /** A transcript range: both ends or neither, and not backwards. */
  function CheckedRange(start: Option<Value>, end: Option<Value>): Checked<Range> {
    if Get(start) == Nil && Get(end) == Nil then Accepted(Range(start, end))
    else
      var first :- CheckedInt(if Get(start) == Nil then Get(end) else Get(start));
      var last :- CheckedInt(if Get(end) == Nil then Get(start) else Get(end));
      if last < first then Refused(Backwards)
      else Accepted(Range(Some(Int(first)), Some(Int(last))))
  }

  /** What becomes of one pointer. */
  function NormalizedPointer(p: Pointer, urlOk: string -> bool): Checked<Pointer> {
    var kind :- CheckedKind(p.kind);
    var reference :- CheckedRef(p.reference);
    var url :- CheckedUrl(p.url, urlOk);
    var excerpt :- CheckedExcerpt(p.excerpt, p.quote);
    var dayIndex :- CheckedDayIndex(p.dayIndex);
    var range :- if kind == "transcript" then CheckedRange(p.startMs, p.endMs) else Accepted(Range(p.startMs, p.endMs));
    Accepted(Pointer(Some(Str(kind)), Some(Str(reference)), url, excerpt, None, dayIndex, range.start, range.end,
                     p.rest))
  }

  function NormalizedItem(item: Item, urlOk: string -> bool): Checked<Pointer> {
    if item.Object? then NormalizedPointer(item.pointer, urlOk) else Refused(ExpectedObject)
  }

  /** Accepted when every item is, and then item by item. */
  predicate Normalizes(items: seq<Item>, urlOk: string -> bool, r: Checked<seq<Pointer>>) {
    if r.Accepted? then
      && |r.value| == |items|
      && forall i | 0 <= i < |items| :: NormalizedItem(items[i], urlOk) == Accepted(r.value[i])
    else exists i | 0 <= i < |items| :: NormalizedItem(items[i], urlOk).Refused?
  }

  function ItemCheck(urlOk: string -> bool): Item -> Checked<Pointer> {
    item => NormalizedItem(item, urlOk)
  }

  /** The list as a whole. */
  function NormalizedItems(items: seq<Item>, urlOk: string -> bool): Checked<seq<Pointer>> {
    CheckAll(items, ItemCheck(urlOk))
  }

  /** There is one outcome for a list: its value, when every item is accepted. */
  lemma NormalizesToOne(items: seq<Item>, urlOk: string -> bool, r: Checked<seq<Pointer>>)
    requires Normalizes(items, urlOk, r)
    ensures if r.Accepted? then NormalizedItems(items, urlOk) == r else NormalizedItems(items, urlOk).Refused?
  {
    var check := ItemCheck(urlOk);
    CheckAllMeans(items, check);
    if r.Accepted? {
      forall i | 0 <= i < |items| ensures check(items[i]) == Accepted(r.value[i]) {
        assert NormalizedItem(items[i], urlOk) == Accepted(r.value[i]);
      }
      assert CheckAll(items, check).value == r.value;
    } else {
      var i :| 0 <= i < |items| && NormalizedItem(items[i], urlOk).Refused?;
      assert check(items[i]).Refused?;
    }
  }

  /** `validate_evidence_pointers`: a loop that edits a copy of each item in place. */
  method ValidateEvidencePointers(value: Payload, urlOk: string -> bool) returns (r: Checked<seq<Pointer>>)
    ensures value.NotAList? ==> r.Refused?
    ensures value.Items? ==> Normalizes(value.items, urlOk, r)
  {
    if value.NotAList? {
      return Refused(ExpectedList);
    }
    var normalized: seq<Pointer> := [];
    for i := 0 to |value.items|
      invariant |normalized| == i
      invariant forall j | 0 <= j < i :: NormalizedItem(value.items[j], urlOk) == Accepted(normalized[j])
    {
      if value.items[i].NotAnObject? {
        return Refused(ExpectedObject);
      }
      var item := value.items[i].pointer;
      var kind := CheckedKind(item.kind);
      if kind.Refused? { return Refused(kind.reason); }
      item := item.(kind := Some(Str(kind.value)));
      var reference := CheckedRef(item.reference);
      if reference.Refused? { return Refused(reference.reason); }
      item := item.(reference := Some(Str(reference.value)));
      var url := CheckedUrl(item.url, urlOk);
      if url.Refused? { return Refused(url.reason); }
      item := item.(url := url.value);
      var excerpt := CheckedExcerpt(item.excerpt, item.quote);
      if excerpt.Refused? { return Refused(excerpt.reason); }
      item := item.(excerpt := excerpt.value);
      item := item.(quote := None);
      var day := CheckedDayIndex(item.dayIndex);
      if day.Refused? { return Refused(day.reason); }
      item := item.(dayIndex := day.value);
      if kind.value == "transcript" {
        var range := CheckedRange(item.startMs, item.endMs);
        if range.Refused? { return Refused(range.reason); }
        item := item.(startMs := range.value.start, endMs := range.value.end);
      }
      assert NormalizedItem(value.items[i], urlOk) == Accepted(item);
      normalized := normalized + [item];
    }
    return Accepted(normalized);
  }

  // What the report shows.

  datatype Shown = Shown(
    kind: string,
    reference: Option<string>,
    url: Option<string>,
    excerpt: Option<string>,
    startMs: Option<int>,
    endMs: Option<int>,
    dayIndex: Option<int>,
    texts: map<string, string>)

  const OPTIONAL_TEXT_KEYS: set<string> := {
    "label", "title", "description", "dayLabel", "sourceLabel", "dimensionKey", "dimensionLabel", "anchor"
  }

  function ShownText(v: Value): Option<string> {
    if IsText(v) then Some(Text.Strip(v.s)) else None
  }

  /** Python's bool is an int. */
  function AsInt(v: Value): Option<int> {
    match v
    case Int(i) => Some(i)
    case Bool(b) => Some(if b then 1 else 0)
    case _ => None
  }

  function ShownMs(v: Value): Option<int> {
    if AsInt(v).Some? && AsInt(v).value >= 0 then AsInt(v) else None
  }

  function OrElse<T>(a: Option<T>, b: Option<T>): Option<T> {
    if a.Some? then a else b
  }

  /** Each end stands in for the other when that one is missing. */
  function ShownRange(start: Option<Value>, end: Option<Value>): (Option<int>, Option<int>) {
    var first, last := ShownMs(Get(start)), ShownMs(Get(end));
    (OrElse(first, last), OrElse(last, first))
  }

  /** `_sanitize_evidence` */
  function Sanitized(p: Pointer): Option<Shown> {
    var kind := ShownText(Get(p.kind));
    if kind.None? then None
    else
      var range := if kind.value == "transcript" then ShownRange(p.startMs, p.endMs) else (None, None);
      var day := AsInt(Get(p.dayIndex));
      Some(Shown(
        kind.value,
        ShownText(Get(p.reference)),
        ShownText(Get(p.url)),
        OrElse(ShownText(Get(p.excerpt)), ShownText(Get(p.quote))),
        range.0,
        range.1,
        if day.Some? && 1 <= day.value <= 5 then day else None,
        map key | key in OPTIONAL_TEXT_KEYS && key in p.rest && IsText(p.rest[key]) :: Text.Strip(p.rest[key].s)))
  }

  function AsItems(pointers: seq<Pointer>): seq<Item> {
    seq(|pointers|, i requires 0 <= i < |pointers| => Object(pointers[i]))
  }

  // Each validator leaves alone what it let through.

  lemma KindIsStable(field: Option<Value>)
    requires CheckedKind(field).Accepted?
    ensures var kind := CheckedKind(field).value;
            && kind in ALLOWED_KINDS && Text.Strip(kind) == kind && kind != ""
            && CheckedKind(Some(Str(kind))) == Accepted(kind)
  {
    var kind := CheckedKind(field).value;
    assert "submission"[0] == 's' && "tests"[0] == 't' && "tests" != "test" && "submission" != "reflection";
    assert Text.Trimmed(kind);
    assert Canonical(kind) == kind;
  }

  lemma UrlIsStable(field: Option<Value>, urlOk: string -> bool)
    requires CheckedUrl(field, urlOk).Accepted?
    ensures CheckedUrl(CheckedUrl(field, urlOk).value, urlOk) == CheckedUrl(field, urlOk)
  {
  }

  lemma ExcerptIsStable(excerpt: Option<Value>, quote: Option<Value>)
    requires CheckedExcerpt(excerpt, quote).Accepted?
    ensures CheckedExcerpt(CheckedExcerpt(excerpt, quote).value, None) == CheckedExcerpt(excerpt, quote)
  {
  }

  lemma RangeIsStable(start: Option<Value>, end: Option<Value>)
    requires CheckedRange(start, end).Accepted?
    ensures var range := CheckedRange(start, end).value;
            && CheckedRange(range.start, range.end) == Accepted(range)
            && (Get(range.start) == Nil <==> Get(range.end) == Nil)
            && (Get(range.start) != Nil ==>
                range.start.value.Int? && range.end.value.Int? && 0 <= range.start.value.i <= range.end.value.i)
  {
  }

  // Main results.

  /** A stored pointer is what storing it again would store. */
  lemma NormalizedIsStable(p: Pointer, urlOk: string -> bool)
    requires NormalizedPointer(p, urlOk).Accepted?
    ensures NormalizedPointer(NormalizedPointer(p, urlOk).value, urlOk) == NormalizedPointer(p, urlOk)
  {
    KindIsStable(p.kind);
    UrlIsStable(p.url, urlOk);
    ExcerptIsStable(p.excerpt, p.quote);
    if CheckedKind(p.kind).value == "transcript" {
      RangeIsStable(p.startMs, p.endMs);
    }
  }

  /** Normalization is idempotent on every list it accepts. */
  lemma NormalizationIsIdempotent(items: seq<Item>, urlOk: string -> bool, once: seq<Pointer>,
                                  twice: Checked<seq<Pointer>>)
    requires Normalizes(items, urlOk, Accepted(once)) && Normalizes(AsItems(once), urlOk, twice)
    ensures twice == Accepted(once)
  {
    forall i | 0 <= i < |once| ensures NormalizedItem(AsItems(once)[i], urlOk) == Accepted(once[i]) {
      assert NormalizedItem(items[i], urlOk) == Accepted(once[i]);
      NormalizedIsStable(items[i].pointer, urlOk);
    }
    if twice.Accepted? {
      assert forall i | 0 <= i < |once| :: NormalizedItem(AsItems(once)[i], urlOk) == Accepted(twice.value[i]);
      assert twice.value == once;
    }
  }

  /** The report drops no stored pointer, and keeps its kind, reference and excerpt. */
  lemma SanitizerKeepsNormalized(p: Pointer, urlOk: string -> bool)
    requires NormalizedPointer(p, urlOk).Accepted?
    ensures var stored := NormalizedPointer(p, urlOk).value;
            var shown := Sanitized(stored);
            && shown.Some?
            && Some(Str(shown.value.kind)) == stored.kind && shown.value.kind in ALLOWED_KINDS
            && shown.value.reference.Some? && Some(Str(shown.value.reference.value)) == stored.reference
            && (shown.value.excerpt.Some? <==> IsText(Get(stored.excerpt)))
            && (shown.value.excerpt.Some? ==> Some(Str(shown.value.excerpt.value)) == stored.excerpt)
            && (Get(stored.url) != Nil ==> shown.value.url.Some? && Some(Str(shown.value.url.value)) == stored.url)
            && (Get(stored.dayIndex) != Nil ==>
                shown.value.dayIndex.Some? && Some(Int(shown.value.dayIndex.value)) == stored.dayIndex)
  {
    KindIsStable(p.kind);
  }

  predicate RangeKept(stored: Pointer, first: Option<int>, last: Option<int>) {
    && (first.Some? <==> last.Some?)
    && (first.Some? <==> Get(stored.startMs) != Nil)
    && (first.Some? ==>
          0 <= first.value <= last.value && stored.startMs == Some(Int(first.value))
              && stored.endMs == Some(Int(last.value)))
  }

  /** A stored transcript pointer shows both ends of its range or neither, never backwards. */
  lemma SanitizerKeepsRange(p: Pointer, urlOk: string -> bool)
    requires NormalizedPointer(p, urlOk).Accepted?
    ensures var stored := NormalizedPointer(p, urlOk).value;
            var shown := Sanitized(stored);
            && shown.Some?
            && if shown.value.kind == "transcript" then RangeKept(stored, shown.value.startMs, shown.value.endMs)
               else shown.value.startMs == shown.value.endMs == None
  {
    KindIsStable(p.kind);
    var stored := NormalizedPointer(p, urlOk).value;
    var kind := CheckedKind(p.kind).value;
    assert ShownText(Get(stored.kind)) == Some(kind);
    if kind == "transcript" {
      RangeIsStable(p.startMs, p.endMs);
      assert RangeKept(stored, ShownRange(stored.startMs, stored.endMs).0, ShownRange(stored.startMs, stored.endMs).1);
    }
  }

  /** What the report shows of a pointer that was handed in. */
  predicate PointerShown(given: Pointer, shown: Shown) {
    && IsText(Get(given.kind)) && IsText(Get(given.reference))
    && (var kind := Text.Strip(Get(given.kind).s);
        shown.kind == if kind == "reflection" then "submission" else if kind == "test" then "tests" else kind)
    && shown.reference == Some(Text.Strip(Get(given.reference).s))
    && (if Get(given.url) == Nil then shown.url == None
        else Get(given.url).Str? && shown.url == Some(Text.Strip(Get(given.url).s)))
    && (var text := if Get(given.excerpt) == Nil then Get(given.quote) else Get(given.excerpt);
        shown.excerpt == if IsText(text) then Some(Text.Strip(text.s)) else None)
    && (if Get(given.dayIndex) == Nil then shown.dayIndex == None
        else Get(given.dayIndex).Int? && shown.dayIndex == Some(Get(given.dayIndex).i))
    && (if shown.kind == "transcript" then RangeShown(given, shown) else shown.startMs == shown.endMs == None)
  }

  /** Both ends as given; one that is missing is taken from the other. */
  predicate RangeShown(given: Pointer, shown: Shown) {
    var start, end := Get(given.startMs), Get(given.endMs);
    if start == Nil && end == Nil then shown.startMs == shown.endMs == None
    else
      && shown.startMs.Some? && shown.endMs.Some?
      && start in {Nil, Int(shown.startMs.value)} && end in {Nil, Int(shown.endMs.value)}
      && (start == Nil || end == Nil ==> shown.startMs == shown.endMs)
  }

  lemma TextIsShown(v: Value)
    requires IsText(v)
    ensures ShownText(Str(Text.Strip(v.s))) == Some(Text.Strip(v.s))
  {
  }

  lemma ExcerptIsShown(excerpt: Option<Value>, quote: Option<Value>)
    requires CheckedExcerpt(excerpt, quote).Accepted?
    ensures var text := if Get(excerpt) == Nil then Get(quote) else Get(excerpt);
            OrElse(ShownText(Get(CheckedExcerpt(excerpt, quote).value)), ShownText(Nil))
              == if IsText(text) then Some(Text.Strip(text.s)) else None
  {
  }

  lemma RangeIsShown(given: Pointer)
    requires CheckedRange(given.startMs, given.endMs).Accepted?
    ensures var range := CheckedRange(given.startMs, given.endMs).value;
            forall shown: Shown | (shown.startMs, shown.endMs) == ShownRange(range.start, range.end) ::
              RangeShown(given, shown)
  {
    RangeIsStable(given.startMs, given.endMs);
  }

  /** Storing a pointer and showing it loses and changes nothing but blanks and the two names. */
  lemma StoredPointerIsShown(given: Pointer, urlOk: string -> bool)
    requires NormalizedPointer(given, urlOk).Accepted?
    ensures Sanitized(NormalizedPointer(given, urlOk).value).Some?
    ensures PointerShown(given, Sanitized(NormalizedPointer(given, urlOk).value).value)
  {
    KindIsStable(given.kind);
    TextIsShown(Get(given.reference));
    ExcerptIsShown(given.excerpt, given.quote);
    UrlIsStable(given.url, urlOk);
    if CheckedKind(given.kind).value == "transcript" {
      RangeIsShown(given);
    }
  }
}
