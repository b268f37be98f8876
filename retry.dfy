/**
 * The retry policy the client puts on `act`, `step` and `get_state`:
 * `tenacity.retry(stop=stop_after_attempt(n), reraise=...)` with the default
 * retry condition (any exception) and no wait between attempts. Attempts run
 * until one succeeds or the budget of n is spent; then either the last
 * attempt's exception is re-raised (`reraise=True`) or a RetryError wrapping
 * it is raised.
 */
module Retry {
  import opened Python

  /** What the decorated call returns, and how many attempts it made. */
  datatype Run<T> = Run(result: Result<T, Error>, attempts: nat)

  /** The exception raised when the budget is spent and `last` failed. */
  function Exhausted<T>(last: Result<T, Error>, reraise: bool): Result<T, Error>
    requires last.Err?
  {
    if reraise then last else Err(RetryExhausted(last.error))
  }

  /** The run over the outcomes the successive attempts would have;
      `|outcomes|` is the budget. */
  function Retry<T>(outcomes: seq<Result<T, Error>>, reraise: bool): (run: Run<T>)
    requires |outcomes| >= 1
    ensures 1 <= run.attempts <= |outcomes|
    ensures forall i :: 0 <= i < run.attempts - 1 ==> outcomes[i].Err?
    ensures run.result.Ok? ==> run.result == outcomes[run.attempts - 1]
    ensures outcomes[run.attempts - 1].Ok? ==> run.result == outcomes[run.attempts - 1]
    ensures outcomes[run.attempts - 1].Err? ==>
              run.attempts == |outcomes| && run.result == Exhausted(outcomes[|outcomes| - 1], reraise)
    decreases |outcomes|
  {
    if outcomes[0].Ok? then Run(outcomes[0], 1)
    else if |outcomes| == 1 then Run(Exhausted(outcomes[0], reraise), 1)
    else
      var rest := Retry(outcomes[1..], reraise);
      Run(rest.result, rest.attempts + 1)
  }

  /** The call succeeds exactly when some attempt within the budget does, and
      then it returns the first success and stops there. */
  lemma {:induction false} RetryFirstSuccess<T>(outcomes: seq<Result<T, Error>>, reraise: bool, k: nat)
    requires k < |outcomes| && outcomes[k].Ok?
    requires forall i :: 0 <= i < k ==> outcomes[i].Err?
    ensures Retry(outcomes, reraise) == Run(outcomes[k], k + 1)
  {
    if k > 0 {
      RetryFirstSuccess(outcomes[1..], reraise, k - 1);
    }
  }

  /** When every attempt fails, all of the budget is used and the last
      failure decides the exception. */
  lemma {:induction false} RetryAllFail<T>(outcomes: seq<Result<T, Error>>, reraise: bool)
    requires |outcomes| >= 1
    requires forall i :: 0 <= i < |outcomes| ==> outcomes[i].Err?
    ensures Retry(outcomes, reraise) == Run(Exhausted(outcomes[|outcomes| - 1], reraise), |outcomes|)
  {
    if |outcomes| > 1 {
      RetryAllFail(outcomes[1..], reraise);
    }
  }

  /** Success within the budget is success, whatever failed before it. */
  lemma RetrySucceedsIff<T>(outcomes: seq<Result<T, Error>>, reraise: bool)
    requires |outcomes| >= 1
    ensures Retry(outcomes, reraise).result.Ok? <==> exists i :: 0 <= i < |outcomes| && outcomes[i].Ok?
  {
    var run := Retry(outcomes, reraise);
    if exists i :: 0 <= i < |outcomes| && outcomes[i].Ok? {
      var i :| 0 <= i < |outcomes| && outcomes[i].Ok?;
      assert run.attempts - 1 <= i;
    }
  }
}
