/** The loop both input readers run around their wait system call: an
    outcome reporting that the call was interrupted by a signal (`EINTR`) is
    retried, and the first other outcome is acted on. */
module Retry {

  /** The position of the first outcome that is not retried: the outcome a
      wait loop that retries on `retry` finally acts on. */
  function FirstSettled<T>(outcomes: seq<T>, retry: T -> bool): (k: nat)
    requires exists i :: 0 <= i < |outcomes| && !retry(outcomes[i])
    ensures k < |outcomes| && !retry(outcomes[k])
    ensures forall j :: 0 <= j < k ==> retry(outcomes[j])
  {
    if !retry(outcomes[0]) then 0
    else
      var i :| 0 <= i < |outcomes| && !retry(outcomes[i]);
      assert outcomes[1..][i - 1] == outcomes[i];
      1 + FirstSettled(outcomes[1..], retry)
  }
}
