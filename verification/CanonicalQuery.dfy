/**
 The canonical query string of a presigned request: every name and value quoted, the pairs sorted,
 joined with `=` and `&`.
 */
module CanonicalQuery {
  import opened PercentEncoding
  import opened Sets
  import opened Sorting
  import opened Values
  import Text

  datatype Pair = Pair(key: string, value: string)

  function QuotedPair(key: string, value: string): Pair {
    Pair(Quote(key), Quote(value))
  }

  /** Pairs compare by name, then by value. */
  predicate ByPair(a: Pair, b: Pair) {
    LexLe([a.key, a.value], [b.key, b.value])
  }

  function Rendered(pair: Pair): string {
    pair.key + "=" + pair.value
  }

  function RenderAll(pairs: seq<Pair>): seq<string> {
    seq(|pairs|, i requires 0 <= i < |pairs| => Rendered(pairs[i]))
  }

  function QuotedPairs(params: map<string, string>, keys: set<string>): set<Pair>
    requires keys <= params.Keys
  {
    set key | key in keys :: QuotedPair(key, params[key])
  }

  /** The query string of some parameters: their quoted pairs, each once, in order. */
  ghost predicate IsCanonical(params: map<string, string>, query: string) {
    exists pairs: seq<Pair> ::
      && Ascending(ByPair, pairs)
      && multiset(pairs) == multiset(QuotedPairs(params, params.Keys))
      && query == Text.Join("&", RenderAll(pairs))
  }

  lemma PairOrder()
    ensures TotalOrder(ByPair)
  {
    forall a: Pair, b: Pair ensures ByPair(a, b) || ByPair(b, a) {
      LexLeIsTotal([a.key, a.value], [b.key, b.value]);
    }
    forall a: Pair, b: Pair, c: Pair | ByPair(a, b) && ByPair(b, c) ensures ByPair(a, c) {
      LexLeIsTransitive([a.key, a.value], [b.key, b.value], [c.key, c.value]);
    }
  }

  lemma PairsDoNotTie(pairs: seq<Pair>)
    ensures NoTies(ByPair, pairs)
  {
    forall i, j | 0 <= i < |pairs| && 0 <= j < |pairs| && ByPair(pairs[i], pairs[j]) && ByPair(pairs[j], pairs[i])
      ensures pairs[i] == pairs[j]
    {
      var a, b := pairs[i], pairs[j];
      LexLeIsTotal([a.key, a.value], [b.key, b.value]);
      assert [a.key, a.value][0] == [b.key, b.value][0] && [a.key, a.value][1] == [b.key, b.value][1];
    }
  }

  lemma OneMorePair(params: map<string, string>, keys: set<string>, key: string)
    requires keys <= params.Keys && key in params && key !in keys
    ensures multiset(QuotedPairs(params, keys + {key})) == multiset(QuotedPairs(params, keys))
              + multiset{QuotedPair(key, params[key])}
  {
    var before, pair := QuotedPairs(params, keys), QuotedPair(key, params[key]);
    if pair in before {
      var other :| other in keys && QuotedPair(other, params[other]) == pair;
      UnquoteQuote(other);
      UnquoteQuote(key);
      assert false;
    }
    assert QuotedPairs(params, keys + {key}) == before + {pair};
  }

  /** `_canonical_query_string`; the parameters come in whatever order they were inserted. */
  method CanonicalQueryString(params: map<string, string>) returns (query: string)
    ensures IsCanonical(params, query)
  {
    var pairs: seq<Pair> := [];
    var rest := params.Keys;
    while rest != {}
      invariant rest <= params.Keys
      invariant multiset(pairs) == multiset(QuotedPairs(params, params.Keys - rest))
      decreases rest
    {
      var key := NextOf(rest);
      OneMorePair(params, params.Keys - rest, key);
      assert params.Keys - (rest - {key}) == params.Keys - rest + {key};
      pairs := pairs + [QuotedPair(key, params[key])];
      rest := rest - {key};
    }
    assert params.Keys - {} == params.Keys;
    PairOrder();
    SortedSorts(ByPair, pairs);
    pairs := Sorted(ByPair, pairs);
    query := Text.Join("&", RenderAll(pairs));
  }

  /** The insertion order does not show: there is only one canonical query string. */
  lemma CanonicalIsUnique(params: map<string, string>, a: string, b: string)
    requires IsCanonical(params, a) && IsCanonical(params, b)
    ensures a == b
  {
    var p :| Ascending(ByPair, p) && multiset(p) == multiset(QuotedPairs(params, params.Keys))
        && a == Text.Join("&", RenderAll(p));
    var q :| Ascending(ByPair, q) && multiset(q) == multiset(QuotedPairs(params, params.Keys))
        && b == Text.Join("&", RenderAll(q));
    PairOrder();
    PairsDoNotTie(p);
    SortedIsUnique(ByPair, p, q);
  }

  // Reading a query string back.

  /** The pieces between separators. */
  function Split(separator: char, s: string): (r: seq<string>)
    ensures r != []
  {
    if s == "" then [""]
    else
      var rest := Split(separator, s[1..]);
      if s[0] == separator then [""] + rest else [[s[0]] + rest[0]] + rest[1..]
  }

  /** A name and a value around one equals sign. */
  function Parsed(piece: string): Option<(string, string)> {
    var parts := Split('=', piece);
    if |parts| != 2 || Unquote(parts[0]).None? || Unquote(parts[1]).None? then None
    else Some((Unquote(parts[0]).value, Unquote(parts[1]).value))
  }

  function ParsedQuery(query: string): seq<Option<(string, string)>> {
    if query == "" then []
    else
      var pieces := Split('&', query);
      seq(|pieces|, i requires 0 <= i < |pieces| => Parsed(pieces[i]))
  }

  lemma {:induction false} SplitPlain(separator: char, s: string)
    requires separator !in s
    ensures Split(separator, s) == [s]
  {
    if s != "" {
      SplitPlain(separator, s[1..]);
      assert s == [s[0]] + s[1..];
    }
  }

  lemma {:induction false} SplitFront(separator: char, front: string, rest: string)
    requires separator !in front
    ensures Split(separator, front + [separator] + rest) == [front] + Split(separator, rest)
  {
    var s := front + [separator] + rest;
    if front == "" {
      assert s[1..] == rest;
    } else {
      assert s[1..] == front[1..] + [separator] + rest;
      SplitFront(separator, front[1..], rest);
      assert front == [front[0]] + front[1..];
    }
  }

  /** Splitting undoes joining, when no piece holds the separator. */
  lemma {:induction false} SplitJoin(separator: char, pieces: seq<string>)
    requires pieces != [] && forall i | 0 <= i < |pieces| :: separator !in pieces[i]
    ensures Split(separator, Text.Join([separator], pieces)) == pieces
  {
    if |pieces| == 1 {
      SplitPlain(separator, pieces[0]);
    } else {
      SplitJoin(separator, pieces[1..]);
      SplitFront(separator, pieces[0], Text.Join([separator], pieces[1..]));
      assert pieces == [pieces[0]] + pieces[1..];
    }
  }

  lemma RenderedHasNoAmpersand(key: string, value: string)
    ensures '&' !in Rendered(QuotedPair(key, value))
  {
    QuoteIsPlain(key);
    QuoteIsPlain(value);
    assert !QuotedChar('&');
  }

  lemma RenderedParses(key: string, value: string)
    ensures Parsed(Rendered(QuotedPair(key, value))) == Some((key, value))
  {
    QuoteIsPlain(key);
    QuoteIsPlain(value);
    assert !QuotedChar('=');
    SplitFront('=', Quote(key), Quote(value));
    SplitPlain('=', Quote(value));
    UnquoteQuote(key);
    UnquoteQuote(value);
  }

  lemma JoinIsEmpty(pairs: seq<Pair>)
    ensures Text.Join("&", RenderAll(pairs)) == "" <==> pairs == []
  {
    if pairs != [] {
      assert RenderAll(pairs)[0] == Rendered(pairs[0]) != "";
    }
  }

  /** Splitting on `&` and `=` and percent-decoding gives back exactly the parameters, each once. */
  lemma QueryParsesBack(params: map<string, string>, query: string)
    requires IsCanonical(params, query)
    ensures |ParsedQuery(query)| == |params|
    ensures forall p :: p in ParsedQuery(query) <==> p.Some? && p.value.0 in params && params[p.value.0] == p.value.1
  {
    var pairs :| Ascending(ByPair, pairs) && multiset(pairs) == multiset(QuotedPairs(params, params.Keys))
                 && query == Text.Join("&", RenderAll(pairs));
    PiecesAreRight(params, pairs, query);
    PairsCount(params, params.Keys);
    assert |pairs| == |multiset(pairs)| == |QuotedPairs(params, params.Keys)|;
    forall p ensures p in ParsedQuery(query) <==> p.Some? && p.value.0 in params && params[p.value.0] == p.value.1 {
      if p in ParsedQuery(query) {
        var i :| 0 <= i < |pairs| && ParsedQuery(query)[i] == p;
        assert pairs[i] in multiset(pairs);
        var key :| key in params && pairs[i] == QuotedPair(key, params[key]);
        RenderedParses(key, params[key]);
      }
      if p.Some? && p.value.0 in params && params[p.value.0] == p.value.1 {
        var key := p.value.0;
        assert QuotedPair(key, params[key]) in QuotedPairs(params, params.Keys);
        assert QuotedPair(key, params[key]) in multiset(pairs);
        var i :| 0 <= i < |pairs| && pairs[i] == QuotedPair(key, params[key]);
        RenderedParses(key, params[key]);
        assert ParsedQuery(query)[i] == p;
      }
    }
  }

  lemma PiecesOf(params: map<string, string>, pairs: seq<Pair>, query: string)
    requires multiset(pairs) == multiset(QuotedPairs(params, params.Keys)) && query == Text.Join("&", RenderAll(pairs))
    requires pairs != []
    ensures Split('&', query) == RenderAll(pairs)
  {
    var pieces := RenderAll(pairs);
    forall i | 0 <= i < |pieces| ensures '&' !in pieces[i] {
      assert pairs[i] in multiset(pairs);
      var key :| key in params && pairs[i] == QuotedPair(key, params[key]);
      RenderedHasNoAmpersand(key, params[key]);
    }
    assert ['&'] == "&";
    SplitJoin('&', pieces);
  }

  lemma PiecesAreRight(params: map<string, string>, pairs: seq<Pair>, query: string)
    requires multiset(pairs) == multiset(QuotedPairs(params, params.Keys)) && query == Text.Join("&", RenderAll(pairs))
    ensures |ParsedQuery(query)| == |pairs| && forall i | 0 <= i < |pairs| ::
              ParsedQuery(query)[i] == Parsed(Rendered(pairs[i]))
  {
    JoinIsEmpty(pairs);
    if pairs != [] {
      PiecesOf(params, pairs, query);
    }
  }

  lemma {:induction false} PairsCount(params: map<string, string>, keys: set<string>)
    requires keys <= params.Keys
    ensures |QuotedPairs(params, keys)| == |keys|
    decreases keys
  {
    if keys != {} {
      var key := AnyOf(keys);
      var rest := keys - {key};
      PairsCount(params, rest);
      OneMorePair(params, rest, key);
      assert rest + {key} == keys;
      assert |multiset(QuotedPairs(params, keys))| == |QuotedPairs(params, keys)|;
      assert |multiset(QuotedPairs(params, rest))| == |QuotedPairs(params, rest)|;
    }
  }

  lemma NameRead(key: string, value: string)
    ensures Split('=', Rendered(QuotedPair(key, value)))[0] == Quote(key)
  {
    QuoteIsPlain(key);
    assert !QuotedChar('=');
    SplitFront('=', Quote(key), Quote(value));
  }

  lemma PairAt(params: map<string, string>, pairs: seq<Pair>, i: nat) returns (key: string)
    requires multiset(pairs) == multiset(QuotedPairs(params, params.Keys)) && i < |pairs|
    ensures key in params && pairs[i] == QuotedPair(key, params[key])
  {
    assert pairs[i] in multiset(pairs);
    key :| key in params && pairs[i] == QuotedPair(key, params[key]);
  }

  lemma PairsDiffer(params: map<string, string>, pairs: seq<Pair>, i: nat, j: nat)
    requires multiset(pairs) == multiset(QuotedPairs(params, params.Keys)) && i < j < |pairs|
    ensures pairs[i].key != pairs[j].key
  {
    NoneTwice(pairs, QuotedPairs(params, params.Keys), i, j);
    var a := PairAt(params, pairs, i);
    var b := PairAt(params, pairs, j);
    UnquoteQuote(a);
    UnquoteQuote(b);
  }

  /** Read from left to right, the quoted names ascend by code point, none twice. */
  lemma NamesAscend(params: map<string, string>, query: string, i: nat, j: nat)
    requires IsCanonical(params, query) && i < j < |Split('&', query)|
    ensures var first, second := Split('=', Split('&', query)[i])[0], Split('=', Split('&', query)[j])[0];
            first != second && Precedes(first, second)
  {
    var pairs: seq<Pair> :| Ascending(ByPair, pairs) && multiset(pairs) == multiset(QuotedPairs(params, params.Keys))
        && query == Text.Join("&", RenderAll(pairs));
    if pairs != [] {
      PiecesOf(params, pairs, query);
      var a := PairAt(params, pairs, i);
      var b := PairAt(params, pairs, j);
      NameRead(a, params[a]);
      NameRead(b, params[b]);
      PairsDiffer(params, pairs, i, j);
      assert ByPair(pairs[i], pairs[j]);
      LexLeOfTwo(pairs[i].key, pairs[i].value, pairs[j].key, pairs[j].value);
    }
  }
}
