/** Option, Result and Outcome stand for the exceptions of the Python
    source: a `Failure` or `Fail` is a raised exception, `None` a missing key. */
module Wrappers {

  datatype Option<+T> = None | Some(value: T)

  datatype Result<+R, +E> = Success(value: R) | Failure(error: E)

  /** The result of a Python function that returns nothing but may raise. */
  datatype Outcome<+E> = Pass | Fail(error: E)

  /** Applies `f` to every element in order and collects the results, stopping
      at the first failure, as a Python `for` loop that appends to a list does
      when one of its steps raises. */
  function Traverse<A, B, E>(xs: seq<A>, f: A -> Result<B, E>): (r: Result<seq<B>, E>)
    ensures r.Success? <==> forall i :: 0 <= i < |xs| ==> f(xs[i]).Success?
    ensures r.Success? ==> |r.value| == |xs|
    ensures r.Success? ==> forall i :: 0 <= i < |xs| ==> f(xs[i]) == Success(r.value[i])
    ensures r.Failure? ==>
      exists k :: 0 <= k < |xs| && f(xs[k]) == Failure(r.error) &&
        forall i :: 0 <= i < k ==> f(xs[i]).Success?
    decreases |xs|
  {
    if xs == [] then Success([])
    else
      var init := xs[..|xs| - 1];
      match Traverse(init, f)
      case Failure(e) => Failure(e)
      case Success(ys) =>
        match f(xs[|xs| - 1])
        case Failure(e) => Failure(e)
        case Success(y) => Success(ys + [y])
  }

  /** Once a prefix of `xs` has failed, the whole traversal fails the same way:
      the steps after the first failure never run. */
  lemma {:induction false} TraversePrefixFailure<A, B, E>(xs: seq<A>, k: nat, f: A -> Result<B, E>)
    requires k <= |xs|
    requires Traverse(xs[..k], f).Failure?
    ensures Traverse(xs, f) == Traverse(xs[..k], f)
    decreases |xs| - k
  {
    if k < |xs| {
      assert xs[..k + 1][..k] == xs[..k];
      TraversePrefixFailure(xs, k + 1, f);
    } else {
      assert xs[..k] == xs;
    }
  }

  /** The traversal of a prefix one element longer extends the shorter one:
      this is the step of a loop that walks `xs` from the front. */
  lemma TraverseStep<A, B, E>(xs: seq<A>, k: nat, ys: seq<B>, f: A -> Result<B, E>)
    requires k < |xs|
    requires Traverse(xs[..k], f) == Success(ys)
    ensures f(xs[k]).Success? ==> Traverse(xs[..k + 1], f) == Success(ys + [f(xs[k]).value])
    ensures f(xs[k]).Failure? ==> Traverse(xs, f) == Failure(f(xs[k]).error)
  {
    assert xs[..k + 1][..k] == xs[..k];
    if f(xs[k]).Failure? {
      TraversePrefixFailure(xs, k + 1, f);
    }
  }
}
