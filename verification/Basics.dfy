/** Options, results and list conversions shared by the modules. */
module Basics {
  datatype Option<+T> = None | Some(value: T)

  datatype Result<+T> = Ok(value: T) | Err {
    predicate IsFailure() { Err? }
    function PropagateFailure<U>(): Result<U>
      requires Err?
    {
      Err
    }
    function Extract(): T
      requires Ok?
    {
      value
    }
  }

  function Min(a: int, b: int): int { if a <= b then a else b }
  function Max(a: int, b: int): int { if a >= b then a else b }

  function Mapped<A, B>(f: A -> B, xs: seq<A>): (r: seq<B>)
    ensures |r| == |xs| && forall i | 0 <= i < |r| :: r[i] == f(xs[i])
  {
    seq(|xs|, i requires 0 <= i < |xs| => f(xs[i]))
  }

  /** Convert every element; the first failure fails the whole. */
  function TryMapped<A, B>(f: A -> Result<B>, xs: seq<A>): (r: Result<seq<B>>)
    ensures r.Ok? ==> |r.value| == |xs| && forall i | 0 <= i < |xs| :: f(xs[i]) == Ok(r.value[i])
    ensures r.Err? ==> exists i | 0 <= i < |xs| :: f(xs[i]).Err?
  {
    if xs == [] then Ok([])
    else
      var n := |xs| - 1;
      var before := TryMapped(f, xs[..n]);
      var last := f(xs[n]);
      if before.Err? then
        assert exists i | 0 <= i < |xs[..n]| :: f(xs[..n][i]).Err?;
        assert forall i | 0 <= i < n :: xs[..n][i] == xs[i];
        Err
      else if last.Err? then assert f(xs[n]).Err?; Err
      else
        assert forall i | 0 <= i < n :: f(xs[..n][i]) == f(xs[i]);
        Ok(before.value + [last.value])
  }
}
