/** Option and Result, the failure-compatible wrappers the rest of the model
    uses for JavaScript's `undefined` and for thrown errors. */
module Wrappers {

  datatype Option<+T> = None | Some(value: T) {
    function GetOr(default: T): T {
      match this
      case Some(v) => v
      case None => default
    }
  }

  datatype Result<+R, +E> = Success(value: R) | Failure(error: E) {
    predicate IsFailure() {
      Failure?
    }

    function PropagateFailure<U>(): Result<U, E>
      requires Failure?
    {
      Failure(error)
    }

    function Extract(): R
      requires Success?
    {
      value
    }
  }

  /** `xs.map(f)` where `f` may throw: the first element (in order) whose
      conversion fails aborts the whole map with that element's error. */
  function MapResult<A, B, E>(xs: seq<A>, f: A -> Result<B, E>): (r: Result<seq<B>, E>)
    ensures r.Success? <==> forall i :: 0 <= i < |xs| ==> f(xs[i]).Success?
    ensures r.Success? ==>
      |r.value| == |xs| && forall i :: 0 <= i < |xs| ==> f(xs[i]) == Success(r.value[i])
    ensures r.Failure? ==>
      exists k :: 0 <= k < |xs| && f(xs[k]) == Failure(r.error) &&
        forall j :: 0 <= j < k ==> f(xs[j]).Success?
  {
    if |xs| == 0 then Success([])
    else
      match f(xs[0])
      case Failure(e) => Failure(e)
      case Success(y) =>
        match MapResult(xs[1..], f)
        case Failure(e) =>
          assert forall j :: 1 <= j < |xs| ==> xs[j] == xs[1..][j - 1];
          Failure(e)
        case Success(ys) =>
          assert forall j :: 1 <= j < |xs| ==> xs[j] == xs[1..][j - 1];
          Success([y] + ys)
  }

  /** The failure that MapResult reports is the one of the first failing element. */
  lemma {:induction false} MapResultFirstFailure<A, B, E>(xs: seq<A>, f: A -> Result<B, E>, k: nat)
    requires k < |xs| && f(xs[k]).Failure?
    requires forall j :: 0 <= j < k ==> f(xs[j]).Success?
    ensures MapResult(xs, f) == Failure(f(xs[k]).error)
  {
    var r := MapResult(xs, f);
    assert r.Failure?;
    var k' :| 0 <= k' < |xs| && f(xs[k']) == Failure(r.error) &&
      forall j :: 0 <= j < k' ==> f(xs[j]).Success?;
    assert k' == k;
  }

  /** Two lists whose elements convert alike convert alike. */
  lemma {:induction false} MapResultPointwise<A, B, E>(xs: seq<A>, ys: seq<A>, f: A -> Result<B, E>)
    requires |xs| == |ys|
    requires forall i :: 0 <= i < |xs| ==> f(xs[i]) == f(ys[i])
    ensures MapResult(xs, f) == MapResult(ys, f)
  {
    if |xs| > 0 {
      MapResultPointwise(xs[1..], ys[1..], f);
    }
  }
}
