/**
 * The rate gate of `checkAuthentification`: a re-validation request is sent
 * only when at least `MinCheckInterval` milliseconds have passed since the
 * last one was sent, and the time of sending is recorded before the request
 * goes out. Clock readings are integer milliseconds since the epoch.
 */
module RateGate {

  const MinCheckInterval: int := 1000

  /** Whether a check at time `now` goes ahead, given the time `last` of the previous one. */
  predicate GateOpen(last: int, now: int) {
    now - last >= MinCheckInterval
  }

  /** The recorded time after a check at `now`: it changes only by moving forward by the interval or more. */
  function AfterCheck(last: int, now: int): (r: int)
    ensures r >= last
    ensures r != last ==> r == now && now >= last + MinCheckInterval
    ensures GateOpen(last, now) ==> r == now
  {
    if GateOpen(last, now) then now else last
  }

  /** The recorded time after checks at each of `times`, in order, starting from `last`. */
  function LastCheckAfter(last: int, times: seq<int>): (r: int)
    ensures r >= last
    decreases |times|
  {
    if times == [] then last
    else AfterCheck(LastCheckAfter(last, times[..|times| - 1]), times[|times| - 1])
  }

  /** Whether the `i`-th of the checks at `times` sent a request. */
  predicate Issued(last: int, times: seq<int>, i: nat)
    requires i < |times|
  {
    GateOpen(LastCheckAfter(last, times[..i]), times[i])
  }

  predicate Nondecreasing(times: seq<int>) {
    forall i, j :: 0 <= i <= j < |times| ==> times[i] <= times[j]
  }

  /** The recorded time never moves backwards along a sequence of checks. */
  lemma {:induction false} LastCheckAfterMonotone(last: int, times: seq<int>, i: nat, j: nat)
    requires i <= j <= |times|
    ensures LastCheckAfter(last, times[..i]) <= LastCheckAfter(last, times[..j])
    decreases j - i
  {
    if i < j {
      LastCheckAfterMonotone(last, times, i, j - 1);
      assert times[..j][..j - 1] == times[..j - 1];
    }
  }

  /** Any two checks that both sent a request are at least the interval apart. */
  lemma ChecksSpaced(last: int, times: seq<int>, i: nat, j: nat)
    requires i < j < |times|
    requires Issued(last, times, i) && Issued(last, times, j)
    ensures times[j] - times[i] >= MinCheckInterval
  {
    assert times[..i + 1][..i] == times[..i];
    assert LastCheckAfter(last, times[..i + 1]) == times[i];
    LastCheckAfterMonotone(last, times, i + 1, j);
  }

  /**
   * Consequently, calls that all fall within one interval (a burst of
   * unauthorized responses) send at most one request.
   */
  lemma AtMostOnePerInterval(last: int, times: seq<int>, i: nat, j: nat)
    requires i < j < |times|
    requires times[j] - times[i] < MinCheckInterval
    ensures !(Issued(last, times, i) && Issued(last, times, j))
  {
    if Issued(last, times, i) && Issued(last, times, j) {
      ChecksSpaced(last, times, i, j);
    }
  }

  /** On a clock that does not go back, the recorded time is never later than the latest call. */
  lemma {:induction false} LastCheckBounded(last: int, times: seq<int>, k: nat)
    requires Nondecreasing(times) && 0 < k <= |times| && last <= times[0]
    ensures LastCheckAfter(last, times[..k]) <= times[k - 1]
    decreases k
  {
    assert times[..k][..k - 1] == times[..k - 1];
    if k > 1 {
      LastCheckBounded(last, times, k - 1);
    }
  }

  /** A call made at least the interval after the previous call always sends a request. */
  lemma CheckAfterQuietSends(last: int, times: seq<int>, j: nat)
    requires Nondecreasing(times) && 0 < j < |times| && last <= times[0]
    requires times[j] - times[j - 1] >= MinCheckInterval
    ensures Issued(last, times, j)
  {
    LastCheckBounded(last, times, j);
  }
}
