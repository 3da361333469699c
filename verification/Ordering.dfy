/** Stable sorting by a total preorder, as Python's `sorted` and `list.sort` do it, and the
    lexicographic order on strings that the sort keys of the recall pipeline end in. */
module Ordering {

  ghost predicate TotalPreorder<T(!new)>(le: (T, T) -> bool) {
    && (forall a, b :: le(a, b) || le(b, a))
    && (forall a, b, c :: le(a, b) && le(b, c) ==> le(a, c))
  }

  ghost predicate Sorted<T>(s: seq<T>, le: (T, T) -> bool) {
    forall i, j | 0 <= i < j < |s| :: le(s[i], s[j])
  }

  /** No two elements at different positions tie. */
  ghost predicate NoTies<T>(s: seq<T>, le: (T, T) -> bool) {
    forall i, j | 0 <= i < |s| && 0 <= j < |s| && le(s[i], s[j]) && le(s[j], s[i]) :: s[i] == s[j]
  }

  /** x goes in front of the first element it does not exceed. */
  function InsertStable<T>(x: T, s: seq<T>, le: (T, T) -> bool): (r: seq<T>)
    ensures |r| == |s| + 1
    ensures multiset(r) == multiset(s) + multiset{x}
  {
    if s == [] then [x]
    else if le(x, s[0]) then
      assert [x] + s == [x] + s;
      [x] + s
    else
      assert s == [s[0]] + s[1..];
      [s[0]] + InsertStable(x, s[1..], le)
  }

  function SortBy<T>(s: seq<T>, le: (T, T) -> bool): (r: seq<T>)
    ensures |r| == |s|
    ensures multiset(r) == multiset(s)
  {
    if s == [] then []
    else
      assert s == [s[0]] + s[1..];
      InsertStable(s[0], SortBy(s[1..], le), le)
  }

  lemma {:induction false} InsertStableSorted<T(!new)>(x: T, s: seq<T>, le: (T, T) -> bool)
    requires TotalPreorder(le) && Sorted(s, le)
    ensures Sorted(InsertStable(x, s, le), le)
  {
    if s == [] || le(x, s[0]) {
    } else {
      InsertStableSorted(x, s[1..], le);
      var rest := InsertStable(x, s[1..], le);
      forall j | 0 <= j < |rest| ensures le(s[0], rest[j]) {
        assert rest[j] in multiset(rest);
        assert rest[j] == x || rest[j] in s[1..];
      }
    }
  }

  lemma {:induction false} SortBySorted<T(!new)>(s: seq<T>, le: (T, T) -> bool)
    requires TotalPreorder(le)
    ensures Sorted(SortBy(s, le), le)
  {
    if s == [] {
    } else {
      SortBySorted(s[1..], le);
      InsertStableSorted(s[0], SortBy(s[1..], le), le);
    }
  }

  lemma SameElements<T>(a: seq<T>, b: seq<T>, x: T)
    requires multiset(a) == multiset(b)
    ensures x in a <==> x in b
  {
    assert x in a <==> x in multiset(a);
    assert x in b <==> x in multiset(b);
  }

  /** The head of a sorted sequence is below all its elements. */
  lemma HeadIsLeast<T(!new)>(a: seq<T>, x: T, le: (T, T) -> bool)
    requires TotalPreorder(le) && Sorted(a, le) && x in a
    ensures le(a[0], x)
  {
    var k :| 0 <= k < |a| && a[k] == x;
    if k > 0 { assert le(a[0], a[k]); }
  }

  lemma MultisetTail<T>(a: seq<T>)
    requires a != []
    ensures multiset(a[1..]) == multiset(a) - multiset{a[0]}
  {
    assert a == [a[0]] + a[1..];
  }

  /** A sorted arrangement without ties is the only one its elements have. */
  lemma {:induction false} SortedUnique<T(!new)>(a: seq<T>, b: seq<T>, le: (T, T) -> bool)
    requires TotalPreorder(le)
    requires multiset(a) == multiset(b)
    requires Sorted(a, le) && Sorted(b, le) && NoTies(a, le)
    ensures a == b
  {
    assert |a| == |multiset(a)| == |multiset(b)| == |b|;
    if a == [] {
    } else {
      var x, y := a[0], b[0];
      assert x == y by {
        SameElements(a, b, x);
        SameElements(a, b, y);
        HeadIsLeast(a, y, le);
        HeadIsLeast(b, x, le);
        var k :| 0 <= k < |a| && a[k] == y;
      }
      MultisetTail(a);
      MultisetTail(b);
      SortedUnique(a[1..], b[1..], le);
      assert a == [x] + a[1..] && b == [x] + b[1..];
    }
  }

  /** Sorting forgets the input order when nothing ties. */
  lemma SortIgnoresOrder<T(!new)>(s: seq<T>, t: seq<T>, le: (T, T) -> bool)
    requires TotalPreorder(le)
    requires multiset(s) == multiset(t)
    requires NoTies(s, le)
    ensures SortBy(s, le) == SortBy(t, le)
  {
    SortBySorted(s, le);
    SortBySorted(t, le);
    var r := SortBy(s, le);
    forall i, j | 0 <= i < |r| && 0 <= j < |r| && le(r[i], r[j]) && le(r[j], r[i])
      ensures r[i] == r[j]
    {
      SameElements(r, s, r[i]);
      SameElements(r, s, r[j]);
    }
    SortedUnique(r, SortBy(t, le), le);
  }

  // ----- stability

  function Keep<T>(s: seq<T>, p: T -> bool): (r: seq<T>)
  {
    if s == [] then []
    else (if p(s[0]) then [s[0]] else []) + Keep(s[1..], p)
  }

  function Ties<T>(pivot: T, le: (T, T) -> bool): T -> bool {
    x => le(x, pivot) && le(pivot, x)
  }

  lemma KeepCons<T>(x: T, s: seq<T>, p: T -> bool)
    ensures Keep([x] + s, p) == (if p(x) then [x] else []) + Keep(s, p)
  {
    assert ([x] + s)[1..] == s;
  }

  /** What goes behind y does not tie with what y ties with. */
  lemma NotBothTie<T(!new)>(x: T, y: T, pivot: T, le: (T, T) -> bool)
    requires TotalPreorder(le) && !le(x, y)
    ensures !(Ties(pivot, le)(x) && Ties(pivot, le)(y))
  {
  }

  lemma Swapped<T>(a: seq<T>, b: seq<T>, rest: seq<T>)
    requires a == [] || b == []
    ensures a + (b + rest) == b + (a + rest)
  {
  }

  lemma KeepInsert<T>(x: T, s: seq<T>, rest: seq<T>, p: T -> bool)
    requires s != [] && !(p(x) && p(s[0])) && Keep(rest, p) == Keep([x] + s[1..], p)
    ensures Keep([s[0]] + rest, p) == Keep([x] + s, p)
  {
    var tail := s[1..];
    KeepCons(s[0], rest, p);
    KeepCons(x, tail, p);
    KeepCons(x, s, p);
    Swapped(if p(s[0]) then [s[0]] else [], if p(x) then [x] else [], Keep(tail, p));
  }

  lemma {:induction false} InsertStableKeeps<T(!new)>(x: T, s: seq<T>, pivot: T, le: (T, T) -> bool)
    requires TotalPreorder(le) && Sorted(s, le)
    ensures Keep(InsertStable(x, s, le), Ties(pivot, le)) == Keep([x] + s, Ties(pivot, le))
  {
    if s != [] && !le(x, s[0]) {
      var p := Ties(pivot, le);
      var rest := InsertStable(x, s[1..], le);
      InsertStableKeeps(x, s[1..], pivot, le);
      NotBothTie(x, s[0], pivot, le);
      KeepInsert(x, s, rest, p);
    }
  }

  /** `sorted` is stable: elements that tie keep their relative order. */
  lemma {:induction false} SortByStable<T(!new)>(s: seq<T>, pivot: T, le: (T, T) -> bool)
    requires TotalPreorder(le)
    ensures Keep(SortBy(s, le), Ties(pivot, le)) == Keep(s, Ties(pivot, le))
  {
    if s == [] {
    } else {
      var rest := SortBy(s[1..], le);
      SortByStable(s[1..], pivot, le);
      SortBySorted(s[1..], le);
      InsertStableKeeps(s[0], rest, pivot, le);
      KeepCons(s[0], rest, Ties(pivot, le));
    }
  }

  /** Sorting a sorted list leaves it alone. */
  lemma {:induction false} SortByOfSorted<T(!new)>(s: seq<T>, le: (T, T) -> bool)
    requires TotalPreorder(le) && Sorted(s, le)
    ensures SortBy(s, le) == s
  {
    if s == [] {
    } else {
      SortByOfSorted(s[1..], le);
      if |s| > 1 { assert le(s[0], s[1]); }
    }
  }

  // ----- strings, compared code point by code point

  predicate StrLe(a: string, b: string) {
    a == [] || (b != [] && (a[0] < b[0] || (a[0] == b[0] && StrLe(a[1..], b[1..]))))
  }

  lemma {:induction false} StrLeTotal(a: string, b: string)
    ensures StrLe(a, b) || StrLe(b, a)
  {
    if a != [] && b != [] && a[0] == b[0] { StrLeTotal(a[1..], b[1..]); }
  }

  lemma {:induction false} StrLeTransitive(a: string, b: string, c: string)
    requires StrLe(a, b) && StrLe(b, c)
    ensures StrLe(a, c)
  {
    if a != [] && b != [] && c != [] && a[0] == b[0] == c[0] { StrLeTransitive(a[1..], b[1..], c[1..]); }
  }

  lemma {:induction false} StrLeAntisymmetric(a: string, b: string)
    requires StrLe(a, b) && StrLe(b, a)
    ensures a == b
  {
    if a != [] && b != [] {
      StrLeAntisymmetric(a[1..], b[1..]);
      assert a == [a[0]] + a[1..] && b == [b[0]] + b[1..];
    }
  }

  /** Strings compare by their first difference, and a prefix comes before what continues it. */
  lemma {:induction false} StrLeIsLexicographic(a: string, b: string)
    ensures a <= b ==> StrLe(a, b)
    ensures forall k | 0 <= k < |a| && k < |b| && a[..k] == b[..k] && a[k] != b[k] :: StrLe(a, b) <==> a[k] < b[k]
  {
    if a == [] || b == [] {
    } else if a[0] == b[0] {
      StrLeIsLexicographic(a[1..], b[1..]);
      forall k | 0 < k < |a| && k < |b| && a[..k] == b[..k] && a[k] != b[k] ensures StrLe(a, b) <==> a[k] < b[k] {
        assert a[1..][..k - 1] == a[..k][1..] && b[1..][..k - 1] == b[..k][1..];
        assert a[1..][k - 1] == a[k] && b[1..][k - 1] == b[k];
      }
    } else {
      forall k | 0 < k < |a| && k < |b| ensures a[..k] != b[..k] { assert a[..k][0] == a[0] && b[..k][0] == b[0]; }
    }
  }

  lemma StrLeIsTotalOrder()
    ensures TotalPreorder(StrLe)
    ensures forall a, b :: StrLe(a, b) && StrLe(b, a) ==> a == b
  {
    forall a, b ensures StrLe(a, b) || StrLe(b, a) { StrLeTotal(a, b); }
    forall a, b, c | StrLe(a, b) && StrLe(b, c) ensures StrLe(a, c) { StrLeTransitive(a, b, c); }
    forall a, b | StrLe(a, b) && StrLe(b, a) ensures a == b { StrLeAntisymmetric(a, b); }
  }
}
