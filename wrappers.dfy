/** Optional values and results with an error, shared by every module. */
module Wrappers {

  datatype Option<+T> = None | Some(value: T)

  datatype Result<+T, +E> = Ok(value: T) | Err(error: E) {
    predicate IsFailure() { Err? }

    function PropagateFailure<U>(): Result<U, E>
      requires Err?
    {
      Err(error)
    }

    function Extract(): T
      requires Ok?
    {
      value
    }
  }

  /** Puts `xs` in front of a successful list result; an error passes through unchanged. */
  function Prepend<T, E>(xs: seq<T>, r: Result<seq<T>, E>): (p: Result<seq<T>, E>)
    ensures p.Ok? <==> r.Ok?
    ensures p.Ok? ==> p.value == xs + r.value
    ensures p.Err? ==> p == r
  {
    match r
    case Ok(ys) => Ok(xs + ys)
    case Err(e) => Err(e)
  }

  lemma PrependPrepend<T, E>(xs: seq<T>, ys: seq<T>, r: Result<seq<T>, E>)
    ensures Prepend(xs, Prepend(ys, r)) == Prepend(xs + ys, r)
  {
    if r.Ok? {
      assert xs + (ys + r.value) == (xs + ys) + r.value;
    }
  }

  /**
   * The accumulator step of a scanning loop: if the whole result is `acc`
   * before what is left, and what is left starts with `xs`, then it is
   * `acc + xs` before the rest.
   */
  lemma PrependStep<T, E>(whole: Result<seq<T>, E>, acc: seq<T>, here: Result<seq<T>, E>, xs: seq<T>, rest: Result<seq<T>, E>)
    requires whole == Prepend(acc, here) && here == Prepend(xs, rest)
    ensures whole == Prepend(acc + xs, rest)
  {
    PrependPrepend(acc, xs, rest);
  }
}
