/** Failure-carrying datatypes and the few Python list behaviours the model relies on. */
module Wrappers {

  /** The Python exception classes the modelled code raises or catches. */
  datatype Error =
    | ValueError
    | AssertionError
    | IndexError
    | KeyError
    | TypeError
    | AttributeError

  datatype Option<+T> = None | Some(value: T)

  datatype Result<+T> = Ok(value: T) | Err(error: Error) {
    predicate IsFailure() { Err? }
    function PropagateFailure<U>(): Result<U> requires Err? { Err(error) }
    function Extract(): T requires Ok? { value }
  }

  /** A statement that either completes or raises. */
  datatype Outcome = Done | Raised(error: Error)

  /** Python's `xs[i]` index resolution: negative indices count from the end. */
  function PyIndex(i: int, n: nat): (r: Option<nat>)
    ensures r.Some? <==> -(n as int) <= i < n
    ensures r.Some? ==> r.value < n && (if i >= 0 then r.value == i else r.value == n + i)
  {
    if 0 <= i < n then Some(i)
    else if -(n as int) <= i < 0 then Some(n + i)
    else None
  }

  /** `np.concatenate` / `np.hstack` over a list of one-dimensional arrays. */
  function Concat(xs: seq<seq<real>>): (r: seq<real>)
    decreases |xs|
  {
    if xs == [] then [] else xs[0] + Concat(xs[1..])
  }

  /** Total number of points of a list of arrays. */
  function TotalLen(xs: seq<seq<real>>): nat
    decreases |xs|
  {
    if xs == [] then 0 else |xs[0]| + TotalLen(xs[1..])
  }

  lemma {:induction false} ConcatLength(xs: seq<seq<real>>)
    ensures |Concat(xs)| == TotalLen(xs)
    decreases |xs|
  {
    if xs != [] { ConcatLength(xs[1..]); }
  }

  lemma {:induction false} ConcatAppend(xs: seq<seq<real>>, y: seq<real>)
    ensures Concat(xs + [y]) == Concat(xs) + y
    decreases |xs|
  {
    if xs == [] {
      assert xs + [y] == [y];
    } else {
      assert (xs + [y])[1..] == xs[1..] + [y];
      ConcatAppend(xs[1..], y);
    }
  }

  /** Python's `list.pop(i)` on a resolved index. */
  function RemoveAt<T>(xs: seq<T>, i: nat): (r: seq<T>)
    requires i < |xs|
    ensures |r| == |xs| - 1
    ensures forall k :: 0 <= k < i ==> r[k] == xs[k]
    ensures forall k :: i <= k < |r| ==> r[k] == xs[k + 1]
  {
    xs[..i] + xs[i + 1..]
  }
}
