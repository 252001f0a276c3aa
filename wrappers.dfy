/** Value-or-error datatypes shared by every module, and the left-to-right
    "map, stopping at the first exception" that the source's loops perform. */
module Wrappers {

  datatype Option<+T> = None | Some(value: T)

  /** The outcome of a call that either produces a value or throws an
      exception; `message` is the exception's `Message`. */
  datatype Result<+T> = Ok(value: T) | Err(message: string) {
    predicate IsFailure() { Err? }

    function PropagateFailure<U>(): Result<U>
      requires Err?
    {
      Err(message)
    }

    function Extract(): T
      requires Ok?
    {
      value
    }
  }

  /** The outcome of a call that returns nothing or throws. */
  datatype Outcome = Pass | Fail(message: string)

  /** Applies `f` to each element in order; the first element on which `f`
      throws makes the whole run throw with that element's message. */
  function MapAll<A, B>(xs: seq<A>, f: A -> Result<B>): Result<seq<B>>
  {
    if xs == [] then Ok([])
    else
      var init := xs[..|xs| - 1];
      match MapAll(init, f)
      case Err(e) => Err(e)
      case Ok(ys) =>
        match f(xs[|xs| - 1])
        case Err(e) => Err(e)
        case Ok(y) => Ok(ys + [y])
  }

  /** `MapAll` succeeds exactly when `f` succeeds on every element, and
      then holds the results in order; otherwise it throws the exception of
      the first element on which `f` throws. */
  lemma {:induction false} MapAllMeaning<A, B>(xs: seq<A>, f: A -> Result<B>)
    ensures MapAll(xs, f).Ok? <==> forall i :: 0 <= i < |xs| ==> f(xs[i]).Ok?
    ensures MapAll(xs, f).Ok? ==>
              |MapAll(xs, f).value| == |xs| && forall i :: 0 <= i < |xs| ==> f(xs[i]) == Ok(MapAll(xs, f).value[i])
    ensures MapAll(xs, f).Err? ==>
              exists i :: 0 <= i < |xs| && f(xs[i]) == Err(MapAll(xs, f).message)
                          && forall j :: 0 <= j < i ==> f(xs[j]).Ok?
    decreases |xs|
  {
    if xs != [] {
      var init := xs[..|xs| - 1];
      MapAllMeaning(init, f);
      assert forall i :: 0 <= i < |init| ==> init[i] == xs[i];
    }
  }

  /** Once a prefix throws, nothing after it is evaluated. */
  lemma {:induction false} MapAllStopsAtError<A, B>(xs: seq<A>, ys: seq<A>, f: A -> Result<B>)
    requires MapAll(xs, f).Err?
    ensures MapAll(xs + ys, f) == MapAll(xs, f)
    decreases |ys|
  {
    if ys != [] {
      var init := ys[..|ys| - 1];
      MapAllStopsAtError(xs, init, f);
      assert (xs + ys)[..|xs + ys| - 1] == xs + init;
    } else {
      assert xs + ys == xs;
    }
  }

  /** One more element: the run so far, then that element. */
  lemma MapAllSnoc<A, B>(xs: seq<A>, x: A, f: A -> Result<B>)
    ensures MapAll(xs + [x], f) ==
      match MapAll(xs, f)
      case Err(e) => Err(e)
      case Ok(ys) => (match f(x) case Err(e) => Err(e) case Ok(y) => Ok(ys + [y]))
  {
    assert (xs + [x])[..|xs|] == xs;
  }

  /** The loop form of `MapAll`: element `i` after a prefix that succeeded. */
  lemma MapAllStep<A, B>(xs: seq<A>, i: int, f: A -> Result<B>)
    requires 0 <= i < |xs|
    requires MapAll(xs[..i], f).Ok?
    ensures f(xs[i]).Ok? ==> MapAll(xs[..i + 1], f) == Ok(MapAll(xs[..i], f).value + [f(xs[i]).value])
    ensures f(xs[i]).Err? ==> MapAll(xs, f) == Err(f(xs[i]).message)
  {
    var prefix, x := xs[..i], xs[i];
    assert xs[..i + 1] == prefix + [x];
    MapAllSnoc(prefix, x, f);
    if f(x).Err? {
      MapAllErrorAt(xs, i, f);
    }
  }

  lemma MapAllErrorAt<A, B>(xs: seq<A>, i: int, f: A -> Result<B>)
    requires 0 <= i < |xs|
    requires MapAll(xs[..i + 1], f).Err?
    ensures MapAll(xs, f) == MapAll(xs[..i + 1], f)
  {
    MapAllStopsAtError(xs[..i + 1], xs[i + 1..], f);
    assert xs[..i + 1] + xs[i + 1..] == xs;
  }

  /** The same step for a loop over `xs[1..]` that starts at index 1. */
  lemma MapAllTailStep<A, B>(xs: seq<A>, i: int, done: seq<B>, f: A -> Result<B>)
    requires 1 <= i < |xs|
    requires MapAll(xs[1..i], f) == Ok(done)
    ensures f(xs[i]).Ok? ==> MapAll(xs[1..i + 1], f) == Ok(done + [f(xs[i]).value])
    ensures f(xs[i]).Err? ==> MapAll(xs[1..], f) == Err(f(xs[i]).message)
  {
    var tail := xs[1..];
    assert tail[..i - 1] == xs[1..i];
    assert tail[..i] == xs[1..i + 1];
    assert tail[i - 1] == xs[i];
    MapAllStep(tail, i - 1, f);
  }
}
