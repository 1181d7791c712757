/** Failure-carrying wrappers shared by every module of the model. */
module Wrappers {

  /** A value that may be absent (JavaScript's `undefined`/`null`). */
  datatype Option<+T> = None | Some(value: T) {
    function GetOr(default: T): T {
      match this
      case Some(v) => v
      case None => default
    }
  }

  /** The result of an operation that either produces a value or throws. */
  datatype Result<+T, +E> = Ok(value: T) | Err(error: E)

  /** The result of an operation that produces nothing but may throw. */
  datatype Outcome<+E> = Pass | Fail(error: E)

  /** The index of the first error, or the length when there is none. */
  function FirstErr<T, E>(rs: seq<Result<T, E>>): (k: nat)
    ensures k <= |rs|
  {
    if rs == [] || rs[0].Err? then 0 else 1 + FirstErr(rs[1..])
  }

  /** An index before which everything succeeded and at which (if anywhere) something failed is the first error. */
  lemma {:induction false} FirstErrAt<T, E>(rs: seq<Result<T, E>>, k: nat)
    requires k <= |rs|
    requires forall j :: 0 <= j < k ==> rs[j].Ok?
    requires k < |rs| ==> rs[k].Err?
    ensures FirstErr(rs) == k
  {
    if k > 0 {
      assert rs[0].Ok?;
      FirstErrAt(rs[1..], k - 1);
    }
  }

  /** Everything before the first error succeeded, and the entry at it (if any) is an error. */
  lemma {:induction false} FirstErrSpec<T, E>(rs: seq<Result<T, E>>)
    ensures forall j :: 0 <= j < FirstErr(rs) ==> rs[j].Ok?
    ensures FirstErr(rs) < |rs| ==> rs[FirstErr(rs)].Err?
  {
    if rs != [] && rs[0].Ok? {
      FirstErrSpec(rs[1..]);
      forall j | 0 < j < FirstErr(rs) ensures rs[j].Ok? {
        assert rs[j] == rs[1..][j - 1];
      }
    }
  }

  /** The values before the first error, in order. */
  function OksBefore<T, E>(rs: seq<Result<T, E>>): (r: seq<T>)
    ensures |r| == FirstErr(rs)
    ensures forall j :: 0 <= j < |r| ==> rs[j] == Ok(r[j])
  {
    if rs == [] || rs[0].Err? then []
    else
      var rest := OksBefore(rs[1..]);
      assert forall j :: 1 <= j < 1 + |rest| ==> rs[j] == rs[1..][j - 1];
      [rs[0].value] + rest
  }

  /** A list whose entries are the values before the first error is `OksBefore`. */
  lemma OksBeforeIs<T, E>(rs: seq<Result<T, E>>, vs: seq<T>)
    requires |vs| == FirstErr(rs)
    requires forall j :: 0 <= j < |vs| ==> rs[j] == Ok(vs[j])
    ensures vs == OksBefore(rs)
  {
    var r := OksBefore(rs);
    assert forall j :: 0 <= j < |vs| ==> vs[j] == r[j];
  }
}
