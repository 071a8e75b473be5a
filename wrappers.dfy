/** Option and Result, the failure-compatible wrappers used throughout the model. */
module Wrappers {

  /** A value that may be absent; `None` stands for Java's `null`. */
  datatype Option<+T> = None | Some(value: T) {
    predicate IsFailure() { None? }

    function PropagateFailure<U>(): Option<U>
      requires None?
    {
      None
    }

    function Extract(): T
      requires Some?
    {
      value
    }
  }

  /** The outcome of an operation that may raise an exception. */
  datatype Result<+T, +E> = Success(value: T) | Failure(error: E) {
    predicate IsFailure() { Failure? }

    function PropagateFailure<U>(): Result<U, E>
      requires Failure?
    {
      Failure(error)
    }

    function Extract(): T
      requires Success?
    {
      value
    }
  }

  /** Every result in `rs` is a success. */
  predicate AllSucceed<T, E>(rs: seq<Result<T, E>>)
  {
    forall i :: 0 <= i < |rs| ==> rs[i].Success?
  }

  /** The error of the first failure in `rs`: what a loop that stops at the first exception raises. */
  function FirstFailure<T, E(==)>(rs: seq<Result<T, E>>): (e: E)
    requires !AllSucceed(rs)
    ensures exists i :: (0 <= i < |rs| && rs[i].Failure? && rs[i].error == e
      && forall j :: 0 <= j < i ==> rs[j].Success?)
  {
    if rs[0].Failure? then rs[0].error
    else
      var rest := rs[1..];
      var e := FirstFailure(rest);
      var i :| 0 <= i < |rest| && rest[i].Failure? && rest[i].error == e && forall j :: 0 <= j < i ==> rest[j].Success?;
      assert rs[i + 1] == rest[i];
      e
  }

  /** A failure that follows only successes is the first failure, whatever comes after it. */
  lemma {:induction false} FirstFailureAt<T, E>(rs: seq<Result<T, E>>, i: nat)
    requires i < |rs| && rs[i].Failure? && forall j :: 0 <= j < i ==> rs[j].Success?
    ensures !AllSucceed(rs) && FirstFailure(rs) == rs[i].error
  {
    if i > 0 {
      FirstFailureAt(rs[1..], i - 1);
    }
  }
}
