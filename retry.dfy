/** Bounded retry loops (`getAvailablePort`, `getProxyInfo`) try one
    operation a fixed number of times and stop at the first success. Each
    attempt's outcome is an input (`None` = the attempt threw); the
    specification is the index of the first successful attempt. */
module Retry {
  import opened Js

  /** The index of the first successful outcome, if any. */
  function FirstSuccess<T>(outcomes: seq<Option<T>>): (r: Option<nat>)
    ensures r.Some? ==> r.value < |outcomes| && outcomes[r.value].Some?
    ensures r.Some? ==> forall j :: 0 <= j < r.value ==> outcomes[j].None?
    ensures r.None? <==> forall j :: 0 <= j < |outcomes| ==> outcomes[j].None?
    decreases |outcomes|
  {
    if |outcomes| == 0 then None
    else if outcomes[0].Some? then Some(0)
    else
      match FirstSuccess(outcomes[1..])
      case None => None
      case Some(k) => Some(k + 1)
  }

  /** The outcome a retry loop of `bound` attempts reports: the value of the
      first success among the first `bound` attempts, and how many attempts it
      made. */
  datatype Run<T> = Run(value: Option<T>, attempts: nat)

  function RetryRun<T>(outcomes: seq<Option<T>>, bound: nat): (run: Run<T>)
    requires |outcomes| >= bound
    ensures run.attempts <= bound
    ensures run.value.Some? ==> run.attempts >= 1 && outcomes[run.attempts - 1] == run.value
    ensures run.value.None? ==> run.attempts == bound
    ensures forall j :: 0 <= j < run.attempts - (if run.value.Some? then 1 else 0) ==> outcomes[j].None?
  {
    match FirstSuccess(outcomes[..bound])
    case Some(k) => Run(outcomes[k], k + 1)
    case None => Run(None, bound)
  }

  /** A run whose attempt `k` is the first success is served by that attempt. */
  lemma {:induction false} FirstSuccessServes<T>(outcomes: seq<Option<T>>, bound: nat, k: nat)
    requires |outcomes| >= bound && k < bound
    requires outcomes[k].Some?
    requires forall j :: 0 <= j < k ==> outcomes[j].None?
    ensures RetryRun(outcomes, bound) == Run(outcomes[k], k + 1)
  {
    var f := FirstSuccess(outcomes[..bound]);
    assert outcomes[..bound][k].Some?;
    assert f.Some?;
    assert outcomes[..bound][f.value] == outcomes[f.value];
  }

  /** A run whose attempts all fail makes all `bound` attempts and yields nothing. */
  lemma AllFailuresExhaust<T>(outcomes: seq<Option<T>>, bound: nat)
    requires |outcomes| >= bound
    requires forall j :: 0 <= j < bound ==> outcomes[j].None?
    ensures RetryRun(outcomes, bound) == Run(None, bound)
  {
    assert forall j :: 0 <= j < bound ==> outcomes[..bound][j].None?;
  }
}
