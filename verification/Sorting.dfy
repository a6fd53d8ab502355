/** Python's `sorted` for a given order, and the order of strings. */
module Sorting {

  predicate Ascending<T>(le: (T, T) -> bool, s: seq<T>) {
    forall i, j | 0 <= i < j < |s| :: le(s[i], s[j])
  }

  function Insert<T>(le: (T, T) -> bool, x: T, s: seq<T>): seq<T> {
    if s == [] then [x]
    else if le(x, s[0]) then [x] + s
    else [s[0]] + Insert(le, x, s[1..])
  }

  /** `sorted(s)`, stable */
  function Sorted<T>(le: (T, T) -> bool, s: seq<T>): (r: seq<T>)
    ensures |r| == |s|
  {
    if s == [] then [] else InsertLength(le, s[0], Sorted(le, s[1..])); Insert(le, s[0], Sorted(le, s[1..]))
  }

  lemma InsertLength<T>(le: (T, T) -> bool, x: T, s: seq<T>)
    ensures |Insert(le, x, s)| == |s| + 1
  {
  }

  ghost predicate TotalOrder<T(!new)>(le: (T, T) -> bool) {
    && (forall a, b :: le(a, b) || le(b, a))
    && (forall a, b, c :: le(a, b) && le(b, c) ==> le(a, c))
  }

  lemma {:induction false} InsertCounts<T>(le: (T, T) -> bool, x: T, s: seq<T>)
    ensures multiset(Insert(le, x, s)) == multiset(s) + multiset{x}
  {
    if s != [] && !le(x, s[0]) {
      assert s == [s[0]] + s[1..];
      InsertCounts(le, x, s[1..]);
    }
  }

  lemma InsertedFrom<T>(le: (T, T) -> bool, x: T, s: seq<T>, y: T)
    requires y in Insert(le, x, s)
    ensures y == x || y in s
  {
    InsertCounts(le, x, s);
    assert y in multiset(Insert(le, x, s));
    assert y in multiset(s) + multiset{x};
  }

  lemma FrontInOrder<T(!new)>(le: (T, T) -> bool, x: T, s: seq<T>)
    requires Ascending(le, s) && forall y | y in s :: le(x, y)
    ensures Ascending(le, [x] + s)
  {
    var r := [x] + s;
    forall i, j | 0 <= i < j < |r| ensures le(r[i], r[j]) {
      assert r[j] == s[j - 1];
      if i > 0 {
        assert r[i] == s[i - 1];
      }
    }
  }

  lemma FirstIsLeast<T(!new)>(le: (T, T) -> bool, s: seq<T>, y: T)
    requires TotalOrder(le) && Ascending(le, s) && y in s
    ensures le(s[0], y)
  {
    var i :| 0 <= i < |s| && s[i] == y;
  }

  lemma {:induction false} InsertInOrder<T(!new)>(le: (T, T) -> bool, x: T, s: seq<T>)
    requires TotalOrder(le) && Ascending(le, s)
    ensures Ascending(le, Insert(le, x, s))
  {
    if s == [] {
    } else if le(x, s[0]) {
      forall y | y in s ensures le(x, y) {
        FirstIsLeast(le, s, y);
      }
      FrontInOrder(le, x, s);
    } else {
      InsertInOrder(le, x, s[1..]);
      forall y | y in Insert(le, x, s[1..]) ensures le(s[0], y) {
        InsertedFrom(le, x, s[1..], y);
        if y in s[1..] {
          FirstIsLeast(le, s, y);
        }
      }
      FrontInOrder(le, s[0], Insert(le, x, s[1..]));
    }
  }

  /** Sorting puts in order and loses nothing. */
  lemma {:induction false} SortedSorts<T(!new)>(le: (T, T) -> bool, s: seq<T>)
    requires TotalOrder(le)
    ensures Ascending(le, Sorted(le, s)) && multiset(Sorted(le, s)) == multiset(s)
  {
    if s != [] {
      assert s == [s[0]] + s[1..];
      SortedSorts(le, s[1..]);
      InsertCounts(le, s[0], Sorted(le, s[1..]));
      InsertInOrder(le, s[0], Sorted(le, s[1..]));
    }
  }

  /** No two different elements tie. */
  ghost predicate NoTies<T>(le: (T, T) -> bool, s: seq<T>) {
    forall i, j | 0 <= i < |s| && 0 <= j < |s| && le(s[i], s[j]) && le(s[j], s[i]) :: s[i] == s[j]
  }

  lemma SameFirst<T(!new)>(le: (T, T) -> bool, a: seq<T>, b: seq<T>)
    requires TotalOrder(le) && NoTies(le, a) && Ascending(le, a) && Ascending(le, b)
    requires a != [] && b != [] && a[0] in b && b[0] in a
    ensures a[0] == b[0]
  {
    var i :| 0 <= i < |a| && a[i] == b[0];
    var j :| 0 <= j < |b| && b[j] == a[0];
    assert le(a[0], a[i]) && le(b[0], b[j]);
  }

  lemma TailsAgree<T>(a: seq<T>, b: seq<T>)
    requires a != [] && b != [] && a[0] == b[0] && multiset(a) == multiset(b)
    ensures multiset(a[1..]) == multiset(b[1..])
  {
    assert a == [a[0]] + a[1..] && b == [b[0]] + b[1..];
    assert multiset(a) == multiset{a[0]} + multiset(a[1..]);
    assert multiset(b) == multiset{b[0]} + multiset(b[1..]);
    assert multiset(a[1..]) == multiset(a) - multiset{a[0]};
  }

  lemma TailInOrder<T(!new)>(le: (T, T) -> bool, a: seq<T>)
    requires a != [] && NoTies(le, a) && Ascending(le, a)
    ensures NoTies(le, a[1..]) && Ascending(le, a[1..])
  {
  }

  lemma {:induction false} SortedIsUnique<T(!new)>(le: (T, T) -> bool, a: seq<T>, b: seq<T>)
    requires TotalOrder(le) && NoTies(le, a) && Ascending(le, a) && Ascending(le, b) && multiset(a) == multiset(b)
    ensures a == b
  {
    assert |multiset(a)| == |a| && |multiset(b)| == |b|;
    if a != [] {
      assert a[0] in multiset(a) && b[0] in multiset(b);
      SameFirst(le, a, b);
      TailsAgree(a, b);
      TailInOrder(le, a);
      SortedIsUnique(le, a[1..], b[1..]);
      assert a == [a[0]] + a[1..] && b == [b[0]] + b[1..];
    }
  }

  /** Sorting forgets the order it was given, if nothing ties. */
  lemma SortedForgetsOrder<T(!new)>(le: (T, T) -> bool, a: seq<T>, b: seq<T>)
    requires TotalOrder(le) && NoTies(le, a) && multiset(a) == multiset(b)
    ensures Sorted(le, a) == Sorted(le, b)
  {
    SortedSorts(le, a);
    SortedSorts(le, b);
    forall i | 0 <= i < |Sorted(le, a)| ensures Sorted(le, a)[i] in a {
      assert Sorted(le, a)[i] in multiset(a);
    }
    assert NoTies(le, Sorted(le, a));
    SortedIsUnique(le, Sorted(le, a), Sorted(le, b));
  }

  /** What is in order already stays as it is. */
  lemma {:induction false} SortedIsIdle<T>(le: (T, T) -> bool, s: seq<T>)
    requires Ascending(le, s)
    ensures Sorted(le, s) == s
  {
    if s != [] {
      SortedIsIdle(le, s[1..]);
      assert s == [s[0]] + s[1..];
    }
  }

  /** A list of the elements of a set has none twice. */
  lemma NoneTwice<T>(s: seq<T>, distinct: set<T>, i: nat, j: nat)
    requires multiset(s) == multiset(distinct) && i < j < |s|
    ensures s[i] != s[j]
  {
    assert s == s[..j] + [s[j]] + s[j + 1..];
    assert multiset(s) == multiset(s[..j]) + multiset{s[j]} + multiset(s[j + 1..]);
    assert s[i] in s[..j];
    assert multiset(s[..j])[s[i]] >= 1 && multiset(s)[s[i]] == 1;
  }

  // Strings compare character by character, by code point.

  predicate StringLe(a: string, b: string) {
    a == "" || (b != "" && (a[0] < b[0] || (a[0] == b[0] && StringLe(a[1..], b[1..]))))
  }

  lemma {:induction false} StringLeIsTotal(a: string, b: string)
    ensures StringLe(a, b) || StringLe(b, a)
    ensures StringLe(a, b) && StringLe(b, a) ==> a == b
  {
    if a != "" && b != "" && a[0] == b[0] {
      StringLeIsTotal(a[1..], b[1..]);
      assert a == [a[0]] + a[1..] && b == [b[0]] + b[1..];
    }
  }

  lemma {:induction false} StringLeIsTransitive(a: string, b: string, c: string)
    requires StringLe(a, b) && StringLe(b, c)
    ensures StringLe(a, c)
  {
    if a != "" && a[0] == b[0] == c[0] {
      StringLeIsTransitive(a[1..], b[1..], c[1..]);
    }
  }

  /** The usual meaning: a prefix, or the lesser code point at the first place that differs. */
  ghost predicate Precedes(a: string, b: string) {
    a <= b || exists i | 0 <= i < |a| && i < |b| :: a[..i] == b[..i] && a[i] < b[i]
  }

  lemma PrecedesTail(c: char, a: string, b: string)
    ensures Precedes([c] + a, [c] + b) <==> Precedes(a, b)
  {
    var x, y := [c] + a, [c] + b;
    assert x[1..] == a && y[1..] == b;
    if Precedes(a, b) && !(a <= b) {
      var i :| 0 <= i < |a| && i < |b| && a[..i] == b[..i] && a[i] < b[i];
      assert x[..i + 1] == [c] + a[..i] && y[..i + 1] == [c] + b[..i];
      assert x[i + 1] < y[i + 1];
    }
    if Precedes(x, y) && !(x <= y) {
      var i :| 0 <= i < |x| && i < |y| && x[..i] == y[..i] && x[i] < y[i];
      assert i > 0;
      assert a[..i - 1] == x[..i][1..] && b[..i - 1] == y[..i][1..];
      assert a[i - 1] < b[i - 1];
    }
  }

  lemma {:induction false} StringLeIsPrecedes(a: string, b: string)
    ensures StringLe(a, b) <==> Precedes(a, b)
  {
    if a != "" && b != "" {
      if a[0] == b[0] {
        StringLeIsPrecedes(a[1..], b[1..]);
        PrecedesTail(a[0], a[1..], b[1..]);
        assert a == [a[0]] + a[1..] && b == [b[0]] + b[1..];
      } else {
        assert a[..0] == b[..0];
        forall i | 0 < i < |a| && i < |b| ensures a[..i] != b[..i] {
          assert a[..i][0] != b[..i][0];
        }
      }
    }
  }

  // Tuples of strings compare component by component.

  predicate LexLe(a: seq<string>, b: seq<string>) {
    a == [] || (b != [] && if a[0] == b[0] then LexLe(a[1..], b[1..]) else StringLe(a[0], b[0]))
  }

  lemma {:induction false} LexLeIsTotal(a: seq<string>, b: seq<string>)
    ensures LexLe(a, b) || LexLe(b, a)
    ensures LexLe(a, b) && LexLe(b, a) ==> a == b
  {
    if a != [] && b != [] {
      StringLeIsTotal(a[0], b[0]);
      if a[0] == b[0] {
        LexLeIsTotal(a[1..], b[1..]);
        assert a == [a[0]] + a[1..] && b == [b[0]] + b[1..];
      }
    }
  }

  lemma {:induction false} LexLeIsTransitive(a: seq<string>, b: seq<string>, c: seq<string>)
    requires LexLe(a, b) && LexLe(b, c)
    ensures LexLe(a, c)
  {
    if a != [] {
      StringLeIsTotal(a[0], b[0]);
      StringLeIsTotal(b[0], c[0]);
      if a[0] == b[0] == c[0] {
        LexLeIsTransitive(a[1..], b[1..], c[1..]);
      } else if a[0] == b[0] || b[0] == c[0] {
      } else {
        StringLeIsTransitive(a[0], b[0], c[0]);
      }
    }
  }

  /** The first component that differs decides. */
  lemma LexLeOfTwo(a: string, b: string, c: string, d: string)
    ensures LexLe([a, b], [c, d]) <==> if a != c then Precedes(a, c) else Precedes(b, d)
  {
    LexLeFirst([a, b], [c, d]);
    LexLeOfOne([a, b][1..], [c, d][1..]);
    StringLeIsPrecedes(a, c);
  }

  lemma LexLeFirst(a: seq<string>, b: seq<string>)
    requires a != [] && b != []
    ensures LexLe(a, b) <==> if a[0] != b[0] then Precedes(a[0], b[0]) else LexLe(a[1..], b[1..])
  {
    StringLeIsPrecedes(a[0], b[0]);
  }

  lemma LexLeOfOne(a: seq<string>, b: seq<string>)
    requires |a| == |b| == 1
    ensures LexLe(a, b) <==> Precedes(a[0], b[0])
  {
    StringLeIsPrecedes(a[0], b[0]);
    LexLeFirst(a, b);
  }

  lemma LexLeOfThree(a: seq<string>, b: seq<string>)
    requires |a| == |b| == 3
    ensures LexLe(a, b) <==>
              if a[0] != b[0] then Precedes(a[0], b[0])
              else if a[1] != b[1] then Precedes(a[1], b[1])
              else Precedes(a[2], b[2])
  {
    LexLeFirst(a, b);
    LexLeFirst(a[1..], b[1..]);
    LexLeOfOne(a[1..][1..], b[1..][1..]);
  }

  lemma LexLeOfFour(a: seq<string>, b: seq<string>)
    requires |a| == |b| == 4
    ensures LexLe(a, b) <==>
              if a[0] != b[0] then Precedes(a[0], b[0])
              else if a[1] != b[1] then Precedes(a[1], b[1])
              else if a[2] != b[2] then Precedes(a[2], b[2])
              else Precedes(a[3], b[3])
  {
    LexLeFirst(a, b);
    LexLeOfThree(a[1..], b[1..]);
  }
}
