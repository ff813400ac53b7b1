/** Optional values and the outcome of operations that may raise, shared by
    the plotting model. */
module Wrappers {

  datatype Option<+T> = None | Some(value: T)

  /** The outcome of an operation that may raise: a value, or the error it raised. */
  datatype Result<+R, +E> = Success(value: R) | Failure(error: E)

  /** Runs a list of steps in order: the first failure, or every value. */
  function Collect<R, E>(rs: seq<Result<R, E>>): Result<seq<R>, E> {
    if |rs| == 0 then Success([])
    else
      var before := Collect(rs[..|rs| - 1]);
      if before.Failure? then before
      else if rs[|rs| - 1].Failure? then Failure(rs[|rs| - 1].error)
      else Success(before.value + [rs[|rs| - 1].value])
  }

  /** Collecting succeeds exactly when every step does, and then yields every
      step's value in order; a failure is that of the first failing step. */
  lemma {:induction false} CollectIff<R, E>(rs: seq<Result<R, E>>)
    ensures Collect(rs).Success? <==> forall k :: 0 <= k < |rs| ==> rs[k].Success?
    ensures Collect(rs).Success? ==>
              |Collect(rs).value| == |rs| && forall k :: 0 <= k < |rs| ==> Collect(rs).value[k] == rs[k].value
    ensures Collect(rs).Failure? ==>
              exists k :: 0 <= k < |rs| && rs[k] == Failure(Collect(rs).error)
                          && forall j :: 0 <= j < k ==> rs[j].Success?
  {
    if |rs| > 0 {
      var init := rs[..|rs| - 1];
      CollectIff(init);
      assert forall k :: 0 <= k < |init| ==> init[k] == rs[k];
      if Collect(init).Failure? {
        var k :| 0 <= k < |init| && init[k] == Failure(Collect(init).error)
                 && forall j :: 0 <= j < k ==> init[j].Success?;
        assert rs[k] == init[k];
      }
    }
  }

  lemma CollectStep<R, E>(rs: seq<Result<R, E>>, k: nat)
    requires k < |rs|
    ensures Collect(rs[..k + 1]) == (
              if Collect(rs[..k]).Failure? then Collect(rs[..k])
              else if rs[k].Failure? then Failure(rs[k].error)
              else Success(Collect(rs[..k]).value + [rs[k].value]))
  {
    assert rs[..k + 1][..k] == rs[..k];
  }

  lemma {:induction false} CollectFailurePersists<R, E>(rs: seq<Result<R, E>>, n: nat)
    requires n <= |rs|
    requires Collect(rs[..n]).Failure?
    ensures Collect(rs) == Collect(rs[..n])
    decreases |rs| - n
  {
    if n < |rs| {
      CollectStep(rs, n);
      CollectFailurePersists(rs, n + 1);
    } else {
      assert rs[..n] == rs;
    }
  }
}
