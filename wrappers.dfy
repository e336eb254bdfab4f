/** Option and Result, the model's stand-ins for Python's None and for raised exceptions. */
module Wrappers {

  datatype Option<+T> = None | Some(value: T)

  datatype Result<+T, +E> = Success(value: T) | Failure(error: E)

  /** Looks a key up in a map: Python's `d.get(k)`. */
  function Get<K, V>(m: map<K, V>, k: K): Option<V>
  {
    if k in m then Some(m[k]) else None
  }

  /**
   * A loop that applies `f` to each of `xs` in order and collects the
   * results, stopping at the first exception, which it propagates.
   */
  function MapResult<A, B, E>(f: A -> Result<B, E>, xs: seq<A>): Result<seq<B>, E>
  {
    if xs == [] then Success([])
    else
      match MapResult(f, xs[..|xs| - 1])
      case Failure(e) => Failure(e)
      case Success(ys) =>
        match f(xs[|xs| - 1])
        case Failure(e) => Failure(e)
        case Success(y) => Success(ys + [y])
  }

  /**
   * The loop completes exactly when `f` succeeds on every element; otherwise
   * it raises the exception of the first element on which `f` fails.
   */
  lemma {:induction false} MapResultSucceeds<A, B, E>(f: A -> Result<B, E>, xs: seq<A>)
    ensures MapResult(f, xs).Success? <==> forall i :: 0 <= i < |xs| ==> f(xs[i]).Success?
    ensures MapResult(f, xs).Failure? ==>
              exists j :: 0 <= j < |xs| && f(xs[j]).Failure? && MapResult(f, xs).error == f(xs[j]).error
                          && forall i :: 0 <= i < j ==> f(xs[i]).Success?
  {
    if xs != [] {
      var init := xs[..|xs| - 1];
      MapResultSucceeds(f, init);
      assert forall i :: 0 <= i < |init| ==> init[i] == xs[i];
      if MapResult(f, init).Failure? {
        var j :| 0 <= j < |init| && f(init[j]).Failure? && MapResult(f, init).error == f(init[j]).error
                 && forall i :: 0 <= i < j ==> f(init[i]).Success?;
        assert f(xs[j]).Failure?;
      } else if f(xs[|xs| - 1]).Failure? {
        assert forall i :: 0 <= i < |xs| - 1 ==> f(xs[i]).Success?;
      }
    }
  }

  /** A completed loop yields exactly one result per element, none when there are no elements. */
  lemma {:induction false} MapResultLength<A, B, E>(f: A -> Result<B, E>, xs: seq<A>)
    requires MapResult(f, xs).Success?
    ensures |MapResult(f, xs).value| == |xs|
  {
    if xs != [] {
      MapResultLength(f, xs[..|xs| - 1]);
    }
  }

  /** A completed loop yields one result per element, in order: result `i` is that of `f` on element `i`. */
  lemma {:induction false} MapResultElements<A, B, E>(f: A -> Result<B, E>, xs: seq<A>, i: nat)
    requires MapResult(f, xs).Success? && i < |xs|
    ensures |MapResult(f, xs).value| == |xs|
    ensures f(xs[i]) == Success(MapResult(f, xs).value[i])
  {
    var init := xs[..|xs| - 1];
    if i < |init| {
      MapResultElements(f, init, i);
      assert init[i] == xs[i];
    } else if |init| > 0 {
      MapResultElements(f, init, 0);
    }
  }
}
