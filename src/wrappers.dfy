/** The optional value used wherever the client holds "a value or nothing" (JavaScript's null/undefined). */
module Wrappers {

  datatype Option<+T> = None | Some(value: T) {

    /** The value inside Some, or the given default for None (JavaScript's `x || default` on a list). */
    function GetOr(default: T): T {
      match this
      case Some(v) => v
      case None => default
    }
  }

  function Max(a: int, b: int): int { if a >= b then a else b }

  function Min(a: int, b: int): int { if a <= b then a else b }

  /** `xs.map(f)`: one result per element, in order. */
  function Map<A, B>(f: A -> B, xs: seq<A>): (r: seq<B>)
    ensures |r| == |xs|
    ensures forall i :: 0 <= i < |xs| ==> r[i] == f(xs[i])
  {
    if xs == [] then [] else [f(xs[0])] + Map(f, xs[1..])
  }
}
