/** Option and Result, and the first-failure traversal that Python's
    `tuple(f(x) for x in xs)` performs when `f` may raise. */
module Wrappers {

  datatype Option<+T> = None | Some(value: T)

  datatype Result<+T, +E> = Success(value: T) | Failure(error: E)

  /** Applies `f` to each element in order and stops at the first failure,
      as a Python loop or generator does when one call raises. */
  function Traverse<A, B, E>(f: A -> Result<B, E>, xs: seq<A>): (r: Result<seq<B>, E>)
    ensures r.Success? <==> forall i :: 0 <= i < |xs| ==> f(xs[i]).Success?
    ensures r.Success? ==> |r.value| == |xs|
    ensures r.Success? ==> forall i :: 0 <= i < |xs| ==> f(xs[i]) == Success(r.value[i])
    ensures r.Failure? ==> exists i :: 0 <= i < |xs| && f(xs[i]) == Failure(r.error) && FirstFailure(f, xs, i)
  {
    if xs == [] then Success([])
    else
      var front := xs[..|xs| - 1];
      assert forall i :: 0 <= i < |front| ==> front[i] == xs[i];
      match Traverse(f, front)
      case Failure(e) => Failure(e)
      case Success(bs) =>
        match f(xs[|xs| - 1])
        case Failure(e) => Failure(e)
        case Success(b) => Success(bs + [b])
  }

  /** `i` is the first position at which `f` fails. */
  ghost predicate FirstFailure<A, B, E>(f: A -> Result<B, E>, xs: seq<A>, i: int)
  {
    0 <= i < |xs| && f(xs[i]).Failure? && forall j :: 0 <= j < i ==> f(xs[j]).Success?
  }

  /** The error reported is the one at the first failing position. */
  lemma TraverseFailsAtFirst<A, B, E>(f: A -> Result<B, E>, xs: seq<A>, i: int)
    requires FirstFailure(f, xs, i)
    ensures Traverse(f, xs) == Failure(f(xs[i]).error)
  {
    var r := Traverse(f, xs);
    assert !f(xs[i]).Success?;
    assert r.Failure?;
    var i' :| 0 <= i' < |xs| && f(xs[i']) == Failure(r.error) && FirstFailure(f, xs, i');
    assert i' == i;
  }

  /** When every call succeeds, the traversal returns all the results. */
  lemma TraverseAll<A, B, E>(f: A -> Result<B, E>, xs: seq<A>, ys: seq<B>)
    requires |xs| == |ys| && forall i :: 0 <= i < |xs| ==> f(xs[i]) == Success(ys[i])
    ensures Traverse(f, xs) == Success(ys)
  {
    var r := Traverse(f, xs);
    assert r.Success?;
    assert r.value == ys;
  }

  /** Once a prefix fails, the whole traversal fails with the same error. */
  lemma {:induction false} TraversePrefixFails<A, B, E>(f: A -> Result<B, E>, xs: seq<A>, i: nat)
    requires i <= |xs| && Traverse(f, xs[..i]).Failure?
    ensures Traverse(f, xs) == Traverse(f, xs[..i])
    decreases |xs| - i
  {
    if i < |xs| {
      assert xs[..i + 1][..i] == xs[..i];
      TraversePrefixFails(f, xs, i + 1);
    } else {
      assert xs[..i] == xs;
    }
  }

  /** Sequencing of two steps that may fail. */
  function Bind<A, B, E>(r: Result<A, E>, f: A -> Result<B, E>): Result<B, E>
  {
    match r
    case Success(a) => f(a)
    case Failure(e) => Failure(e)
  }
}
