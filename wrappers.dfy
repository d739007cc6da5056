/** Option and Result values standing in for C#'s null and for thrown exceptions. */
module Wrappers {

  /** `None` plays the part of a C# null reference. */
  datatype Option<+T> = None | Some(value: T) {

    /** The `??` operator: the value, or `default` for null. */
    function GetOr(default: T): T {
      match this
      case Some(v) => v
      case None => default
    }
  }

  /** `Failure` plays the part of an exception that escapes to the caller. */
  datatype Result<+R, +E> = Success(value: R) | Failure(error: E) {

    predicate IsFailure() {
      Failure?
    }

    function PropagateFailure<U>(): Result<U, E>
      requires Failure?
    {
      Failure(error)
    }

    function Extract(): R
      requires Success?
    {
      value
    }
  }

  /** LINQ's `Where(x => x != null)`: the non-null values, in their original order. */
  function Somes<T(!new)>(xs: seq<Option<T>>): (r: seq<T>)
    ensures |r| <= |xs|
    ensures forall x :: x in r <==> Some(x) in xs
  {
    if xs == [] then []
    else
      var rest := Somes(xs[1..]);
      assert forall o :: o in xs <==> o == xs[0] || o in xs[1..];
      match xs[0]
      case Some(x) => [x] + rest
      case None => rest
  }

  /** Filtering distributes over concatenation, so `Somes` keeps the relative order of its input. */
  lemma {:induction false} SomesAppend<T(!new)>(xs: seq<Option<T>>, ys: seq<Option<T>>)
    ensures Somes(xs + ys) == Somes(xs) + Somes(ys)
  {
    if xs == [] {
      assert xs + ys == ys;
    } else {
      assert (xs + ys)[0] == xs[0];
      assert (xs + ys)[1..] == xs[1..] + ys;
      SomesAppend(xs[1..], ys);
    }
  }

  /** Dropping the nulls of a single value keeps it exactly when it is not null. */
  lemma SomesSingle<T(!new)>(o: Option<T>)
    ensures Somes([o]) == if o.Some? then [o.value] else []
  {
    assert [o][1..] == [];
  }
}
