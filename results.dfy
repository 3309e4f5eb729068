/** Option and Result, plus the in-order "map and stop at the first failure"
    that a Python loop or list comprehension performs when one step raises. */
module Results {

  datatype Option<+T> = None | Some(value: T)

  datatype Result<+T, +E> = Success(value: T) | Failure(error: E) {
    predicate IsFailure() { Failure? }

    function PropagateFailure<U>(): Result<U, E>
      requires Failure?
    {
      Failure(error)
    }

    function Extract(): T
      requires Success?
    {
      value
    }
  }

  /** Applies `f` to the elements of `s` from left to right and collects the
      results; the first failure ends the walk and is the result. */
  function MapAll<A, B, E>(f: A -> Result<B, E>, s: seq<A>): Result<seq<B>, E>
  {
    if s == [] then Success([])
    else
      match MapAll(f, s[..|s| - 1])
      case Failure(e) => Failure(e)
      case Success(init) =>
        match f(s[|s| - 1])
        case Failure(e) => Failure(e)
        case Success(b) => Success(init + [b])
  }

  /** The walk succeeds exactly when every step succeeds, and then it keeps
      the length and order of its input. */
  lemma {:induction false} MapAllSucceeds<A, B, E>(f: A -> Result<B, E>, s: seq<A>)
    ensures MapAll(f, s).Success? <==> forall k :: 0 <= k < |s| ==> f(s[k]).Success?
    ensures MapAll(f, s).Success? ==>
      |MapAll(f, s).value| == |s| &&
      forall k :: 0 <= k < |s| ==> f(s[k]) == Success(MapAll(f, s).value[k])
  {
    if s != [] {
      var init := s[..|s| - 1];
      MapAllSucceeds(f, init);
      assert forall k :: 0 <= k < |init| ==> init[k] == s[k];
    }
  }

  /** When step `k` is the first to fail, the walk fails with its error. */
  lemma {:induction false} MapAllFailsAt<A, B, E>(f: A -> Result<B, E>, s: seq<A>, k: nat)
    requires k < |s|
    requires forall i :: 0 <= i < k ==> f(s[i]).Success?
    requires f(s[k]).Failure?
    ensures MapAll(f, s) == Failure(f(s[k]).error)
  {
    var init := s[..|s| - 1];
    assert forall i :: 0 <= i < |init| ==> init[i] == s[i];
    if k < |s| - 1 {
      MapAllFailsAt(f, init, k);
    } else {
      MapAllSucceeds(f, init);
    }
  }

  /** The step a loop takes: a walk that succeeded on `s[..i]` and then
      meets a failure at `s[i]` fails on the whole of `s` with that error. */
  lemma MapAllStopsAt<A, B, E>(f: A -> Result<B, E>, s: seq<A>, i: nat)
    requires i < |s|
    requires MapAll(f, s[..i]).Success?
    requires f(s[i]).Failure?
    ensures MapAll(f, s) == Failure(f(s[i]).error)
  {
    MapAllSucceeds(f, s[..i]);
    assert forall k :: 0 <= k < i ==> s[..i][k] == s[k];
    MapAllFailsAt(f, s, i);
  }

  /** The step a loop takes when `s[i]` succeeds. */
  lemma MapAllExtends<A, B, E>(f: A -> Result<B, E>, s: seq<A>, i: nat, done: seq<B>)
    requires i < |s|
    requires MapAll(f, s[..i]) == Success(done)
    requires f(s[i]).Success?
    ensures MapAll(f, s[..i + 1]) == Success(done + [f(s[i]).value])
  {
    assert s[..i + 1][..i] == s[..i];
  }
}
