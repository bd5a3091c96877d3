/** Failure-carrying values used throughout the model. */
module Wrappers {

  /** A value that may be absent (Python's `None`). */
  datatype Option<T> = None | Some(value: T)

  /** A computed value or the error that the source would raise instead. */
  datatype Result<T, E> = Ok(value: T) | Err(error: E)

  /**
   * Applies `f` to every element in order and stops at the first failure,
   * as a Python loop stops at the first exception.
   */
  function MapResult<A, B, E>(xs: seq<A>, f: A -> Result<B, E>): (r: Result<seq<B>, E>)
    ensures r.Ok? <==> forall i :: 0 <= i < |xs| ==> f(xs[i]).Ok?
    ensures r.Ok? ==> |r.value| == |xs| && forall i :: 0 <= i < |xs| ==> r.value[i] == f(xs[i]).value
  {
    if xs == [] then Ok([])
    else
      match f(xs[0])
      case Err(e) => Err(e)
      case Ok(y) =>
        match MapResult(xs[1..], f)
        case Err(e) =>
          assert forall k :: 1 <= k < |xs| ==> xs[1..][k - 1] == xs[k];
          Err(e)
        case Ok(ys) =>
          assert forall k :: 1 <= k < |xs| ==> xs[1..][k - 1] == xs[k];
          Ok([y] + ys)
  }

  /** A loop that fails reports the failure of the first element it could not map. */
  lemma {:induction false} MapResultFails<A, B, E>(xs: seq<A>, f: A -> Result<B, E>) returns (i: nat)
    requires MapResult(xs, f).Err?
    ensures i < |xs| && f(xs[i]) == Err(MapResult(xs, f).error) && forall k :: 0 <= k < i ==> f(xs[k]).Ok?
  {
    if f(xs[0]).Err? {
      i := 0;
    } else {
      var j := MapResultFails(xs[1..], f);
      i := j + 1;
      assert forall k :: 1 <= k < |xs| ==> xs[1..][k - 1] == xs[k];
    }
  }

  /** A loop reports only failures that its elements can raise. */
  lemma MapResultErrors<A, B, E>(xs: seq<A>, f: A -> Result<B, E>, p: E -> bool)
    requires forall i :: 0 <= i < |xs| && f(xs[i]).Err? ==> p(f(xs[i]).error)
    ensures MapResult(xs, f).Err? ==> p(MapResult(xs, f).error)
  {
    if MapResult(xs, f).Err? {
      var i := MapResultFails(xs, f);
    }
  }

  /** A loop that met its first failure at element `i` reports that failure. */
  lemma MapResultFirstError<A, B, E>(xs: seq<A>, f: A -> Result<B, E>, i: nat)
    requires i < |xs| && f(xs[i]).Err?
    requires forall k :: 0 <= k < i ==> f(xs[k]).Ok?
    ensures MapResult(xs, f) == Err(f(xs[i]).error)
  {
    var j := MapResultFails(xs, f);
    assert j == i;
  }

  /** A loop that met no failure yields every result, in order. */
  lemma MapResultAllOk<A, B, E>(xs: seq<A>, f: A -> Result<B, E>, ys: seq<B>)
    requires |ys| == |xs|
    requires forall k :: 0 <= k < |xs| ==> f(xs[k]) == Ok(ys[k])
    ensures MapResult(xs, f) == Ok(ys)
  {
    var r := MapResult(xs, f);
    assert r.Ok?;
    assert r.value == ys;
  }

  /**
   * Local proof helper: regrouping a concatenation, stated once so that long
   * proofs can use it without the surrounding context.
   */
  lemma AppendAssociates<T>(a: seq<T>, b: seq<T>, c: seq<T>)
    ensures a + b + c == a + (b + c)
  {
  }
}
