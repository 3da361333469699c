/** Sequence notions shared by the modules: distinctness, positions, Python slices. */
module Sequences {

  ghost predicate Distinct<T>(s: seq<T>) {
    forall i, j | 0 <= i < j < |s| :: s[i] != s[j]
  }

  lemma {:induction false} SetCount<T>(xs: set<T>, s: seq<T>)
    requires Distinct(s) && forall x :: x in xs <==> x in s
    ensures |xs| == |s|
    decreases |s|
  {
    if s == [] {
      assert xs == {};
    } else {
      assert s == [s[0]] + s[1..];
      SetCount(xs - {s[0]}, s[1..]);
    }
  }

  lemma DictCount<T, V>(m: map<T, V>, s: seq<T>)
    requires Distinct(s) && forall x :: x in m <==> x in s
    ensures |m| == |s|
  {
    SetCount(m.Keys, s);
  }

  /** The position of the first occurrence. */
  function IndexOf<T(==)>(s: seq<T>, x: T): (i: nat)
    requires x in s
    ensures i < |s| && s[i] == x
    ensures forall j | 0 <= j < i :: s[j] != x
  {
    if s[0] == x then 0 else 1 + IndexOf(s[1..], x)
  }

  /** Python's `xs[:n]`: a negative n counts from the end. */
  function TakePy<T>(xs: seq<T>, n: int): (r: seq<T>)
    ensures r <= xs
    ensures n >= 0 ==> |r| == if n <= |xs| then n else |xs|
    ensures n < 0 ==> |r| == if |xs| + n >= 0 then |xs| + n else 0
  {
    if n >= |xs| then xs
    else if n >= 0 then xs[..n]
    else if |xs| + n >= 0 then xs[..|xs| + n]
    else []
  }

  /** The elements at the given positions, in that order. */
  function Pick<T>(xs: seq<T>, picks: seq<nat>): seq<T>
    requires forall i | 0 <= i < |picks| :: picks[i] < |xs|
  {
    seq(|picks|, i requires 0 <= i < |picks| => xs[picks[i]])
  }

  lemma PickSnoc<T>(xs: seq<T>, picks: seq<nat>, n: nat)
    requires forall i | 0 <= i < |picks| :: picks[i] < |xs|
    requires n < |xs|
    ensures Pick(xs, picks + [n]) == Pick(xs, picks) + [xs[n]]
  {
  }
}
