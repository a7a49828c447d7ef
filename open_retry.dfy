/** The retry policy for opening the camera: a failed `Camera.open` bumps the
    attempt counter and schedules another try after a delay while the
    counter is below the ceiling; reaching the ceiling gives the start up. */
module OpenRetry {

  const MaxOpenCameraAttempts: nat := 3

  /** After a failed open with counter `attempts`, another attempt is posted. */
  predicate RetriesAfterFailure(attempts: nat)
  {
    attempts + 1 < MaxOpenCameraAttempts
  }

  /** Where a chain of open attempts ends. */
  datatype ChainEnd =
    | Opened(opens: nat)     // the last attempt opened the camera
    | GaveUp(opens: nat)     // the ceiling was reached; the start failed
    | Waiting(opens: nat)    // a retry is still scheduled

  /** The attempts one start makes, from counter `attempts`, when the driver's
      successive `Camera.open` calls succeed as `results` says. */
  function OpenChain(attempts: nat, results: seq<bool>): (e: ChainEnd)
    ensures e.opens <= |results|
    decreases |results|
  {
    if results == [] then Waiting(0)
    else if results[0] then Opened(1)
    else if RetriesAfterFailure(attempts) then
      match OpenChain(attempts + 1, results[1..])
      case Opened(k) => Opened(k + 1)
      case GaveUp(k) => GaveUp(k + 1)
      case Waiting(k) => Waiting(k + 1)
    else GaveUp(1)
  }

  /** A failure below the ceiling passes the rest of the answers on to the
      next attempt: the chain ends as that attempt's chain does, one open
      later. */
  lemma ChainAfterFailure(attempts: nat, results: seq<bool>)
    requires results != [] && !results[0] && RetriesAfterFailure(attempts)
    ensures OpenChain(attempts, results).opens == OpenChain(attempts + 1, results[1..]).opens + 1
    ensures OpenChain(attempts, results).GaveUp? == OpenChain(attempts + 1, results[1..]).GaveUp?
    ensures OpenChain(attempts, results).Opened? == OpenChain(attempts + 1, results[1..]).Opened?
    ensures OpenChain(attempts, results).Waiting? == OpenChain(attempts + 1, results[1..]).Waiting?
  {
  }

  /** From a counter below the ceiling, at most `ceiling - attempts` opens are
      made; in particular a freshly started capture opens at most three times. */
  lemma {:induction false} OpensBounded(attempts: nat, results: seq<bool>)
    requires attempts < MaxOpenCameraAttempts
    ensures 1 <= OpenChain(attempts, results).opens <= MaxOpenCameraAttempts - attempts || results == []
    decreases |results|
  {
    if results != [] && !results[0] && RetriesAfterFailure(attempts) {
      OpensBounded(attempts + 1, results[1..]);
    }
  }

  /** The chain gives up exactly when the first `ceiling - attempts` opens
      all fail. */
  lemma {:induction false} GivesUpIffAllFail(attempts: nat, results: seq<bool>)
    requires attempts < MaxOpenCameraAttempts
    ensures OpenChain(attempts, results).GaveUp? <==>
            (|results| >= MaxOpenCameraAttempts - attempts &&
             forall i :: 0 <= i < MaxOpenCameraAttempts - attempts ==> !results[i])
    decreases |results|
  {
    if results != [] && !results[0] && RetriesAfterFailure(attempts) {
      GivesUpIffAllFail(attempts + 1, results[1..]);
      assert forall i :: 1 <= i < |results| ==> results[i] == results[1..][i - 1];
    }
  }

  /** When the camera opens, it is on the last attempt made, and every
      earlier attempt failed. */
  lemma {:induction false} OpenedOnFirstSuccess(attempts: nat, results: seq<bool>)
    requires OpenChain(attempts, results).Opened?
    ensures var k := OpenChain(attempts, results).opens;
            1 <= k <= |results| && results[k - 1] && forall i :: 0 <= i < k - 1 ==> !results[i]
    decreases |results|
  {
    if !results[0] {
      OpenedOnFirstSuccess(attempts + 1, results[1..]);
      assert forall i :: 1 <= i < |results| ==> results[i] == results[1..][i - 1];
    }
  }

  /** While attempts remain, `k` failures followed by a success open the
      camera on attempt `k + 1`; a fresh start opens on its third attempt
      after two failures. */
  lemma {:induction false} SucceedsAfterFailures(attempts: nat, k: nat, results: seq<bool>)
    requires attempts + k < MaxOpenCameraAttempts
    requires k < |results| && results[k]
    requires forall i :: 0 <= i < k ==> !results[i]
    ensures OpenChain(attempts, results) == Opened(k + 1)
    decreases k
  {
    if k > 0 {
      assert forall i :: 0 <= i < k - 1 ==> results[1..][i] == results[i + 1];
      SucceedsAfterFailures(attempts + 1, k - 1, results[1..]);
    }
  }

  /** A camera switch does not reset the counter: a chain that starts from
      counter `attempts` gives up after exactly `ceiling - attempts` failed
      opens, so after two failures earlier in the same start the next camera
      gets a single attempt. */
  lemma {:induction false} SwitchInheritsCounter(attempts: nat, results: seq<bool>)
    requires attempts < MaxOpenCameraAttempts
    requires |results| >= MaxOpenCameraAttempts - attempts
    requires forall i :: 0 <= i < MaxOpenCameraAttempts - attempts ==> !results[i]
    ensures OpenChain(attempts, results) == GaveUp(MaxOpenCameraAttempts - attempts)
    decreases MaxOpenCameraAttempts - attempts
  {
    if RetriesAfterFailure(attempts) {
      assert forall i :: 0 <= i < MaxOpenCameraAttempts - attempts - 1 ==> results[1..][i] == results[i + 1];
      SwitchInheritsCounter(attempts + 1, results[1..]);
    }
  }
}
