/** Failure-carrying result types shared by every module of the model. */
module Wrappers {

  /** An optional value: `None` stands for an absent JSON key, `undefined`, `null`,
      or for a numeric result that is not a finite number (NaN, Infinity). */
  datatype Option<T> = None | Some(value: T) {
    function GetOr(default: T): (r: T)
      ensures Some? ==> r == value
      ensures None? ==> r == default
    {
      match this
      case Some(v) => v
      case None => default
    }
  }

  /** The outcome of an operation that may raise: the raised message is kept as text. */
  datatype Result<T> = Ok(value: T) | Err(error: string)

  /** Applies `f` to every element in order; the first failure is the outcome. */
  function MapResult<A, B>(f: A -> Result<B>, xs: seq<A>): (r: Result<seq<B>>)
    ensures r.Ok? <==> forall i :: 0 <= i < |xs| ==> f(xs[i]).Ok?
    ensures r.Ok? ==> |r.value| == |xs|
    ensures r.Ok? ==> forall i :: 0 <= i < |xs| ==> r.value[i] == f(xs[i]).value
  {
    if xs == [] then Ok([])
    else
      var front := MapResult(f, xs[..|xs| - 1]);
      var last := f(xs[|xs| - 1]);
      assert forall i :: 0 <= i < |xs| - 1 ==> xs[..|xs| - 1][i] == xs[i];
      if front.Err? then Err(front.error)
      else if last.Err? then Err(last.error)
      else Ok(front.value + [last.value])
  }

  /** One more element: its failure is the prefix's failure, its value is appended. */
  lemma MapResultSnoc<A, B>(f: A -> Result<B>, xs: seq<A>, i: nat)
    requires i < |xs| && MapResult(f, xs[..i]).Ok?
    ensures f(xs[i]).Err? ==> MapResult(f, xs[..i + 1]) == Err(f(xs[i]).error)
    ensures f(xs[i]).Ok? ==> MapResult(f, xs[..i + 1]) == Ok(MapResult(f, xs[..i]).value + [f(xs[i]).value])
  {
    assert xs[..i + 1][..i] == xs[..i];
  }

  /** Once a prefix fails, the whole list fails with the same error. */
  lemma {:induction false} MapResultPrefixError<A, B>(f: A -> Result<B>, xs: seq<A>, n: nat)
    requires n <= |xs| && MapResult(f, xs[..n]).Err?
    ensures MapResult(f, xs) == MapResult(f, xs[..n])
    decreases |xs| - n
  {
    if n < |xs| {
      assert xs[..n + 1][..n] == xs[..n];
      MapResultPrefixError(f, xs, n + 1);
    } else {
      assert xs[..n] == xs;
    }
  }
}

