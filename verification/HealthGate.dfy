/** awaitReady in internal/deploy/rollout.go: the wait for consecutive healthy measurements. */
module HealthGate {

  // NewRollout demands positive limits.
  datatype GateOptions = GateOptions(successes: int, interval: int, timeout: int) {
    predicate Valid() { successes > 0 && interval > 0 && timeout > 0 }

    function Deadline(start: int): int { start + timeout }
  }

  /** The outside of one wait: how many replicas measurement k finds ready, the clock after
    * measurement k, and whether the sleep after it is cut short. */
  datatype World = World(ready: nat -> nat, now: nat -> int, cancelled: nat -> bool)

  // Each sleep advances the clock by at least the interval.
  ghost predicate ClockRuns(w: World, gate: GateOptions) {
    forall k: nat :: SleepAdvances(w, gate, k)
  }

  predicate SleepAdvances(w: World, gate: GateOptions, k: nat) {
    w.now(k + 1) >= w.now(k) + gate.interval
  }

  datatype Verdict = Passed(at: nat) | TimedOut(at: nat) | Cancelled(at: nat)

  // Measurement k completes the required number of consecutive passing measurements.
  predicate Completes(w: World, replicas: nat, successes: int, k: nat) {
    k + 1 >= successes && forall j: nat :: k - successes < j <= k ==> w.ready(j) >= replicas
  }

  // After measurement k the wait goes on.
  predicate Waits(w: World, replicas: nat, gate: GateOptions, deadline: int, k: nat) {
    !Completes(w, replicas, gate.successes, k) && w.now(k) < deadline && !w.cancelled(k)
  }

  // The passing measurements in a row up to and including k.
  function Streak(w: World, replicas: nat, k: nat): nat {
    if w.ready(k) < replicas then 0
    else if k == 0 then 1
    else 1 + Streak(w, replicas, k - 1)
  }

  lemma {:induction false} StreakCompletes(w: World, replicas: nat, n: int, k: nat)
    ensures Streak(w, replicas, k) >= n <==> n <= 0 || Completes(w, replicas, n, k)
    ensures Streak(w, replicas, k) <= k + 1
    decreases k
  {
    if w.ready(k) >= replicas && k > 0 {
      StreakCompletes(w, replicas, n - 1, k - 1);
    }
  }

  // Measurement k is the first to complete the run, and nothing before it ended the wait.
  ghost predicate PassesAt(w: World, replicas: nat, gate: GateOptions, deadline: int, k: nat) {
    && Completes(w, replicas, gate.successes, k)
    && forall j: nat :: j < k ==> Waits(w, replicas, gate, deadline, j)
  }

  lemma PassesOnce(w: World, replicas: nat, gate: GateOptions, deadline: int, at: nat)
    requires forall j: nat :: j < at ==> Waits(w, replicas, gate, deadline, j)
    requires !Waits(w, replicas, gate, deadline, at)
    ensures forall k: nat :: PassesAt(w, replicas, gate, deadline, k) ==> k == at
  {
    forall k: nat | PassesAt(w, replicas, gate, deadline, k) ensures k == at {
      assert k < at ==> Waits(w, replicas, gate, deadline, k);
    }
  }

  /** The wait terminates, and it succeeds exactly at the first measurement that completes
    * the run of passing ones, provided every earlier measurement left time; the clock is
    * looked at only after a measurement that did not succeed. */
  method AwaitReady(w: World, replicas: nat, gate: GateOptions, start: int) returns (v: Verdict)
    requires gate.Valid() && ClockRuns(w, gate)
    ensures v.Passed? ==> PassesAt(w, replicas, gate, gate.Deadline(start), v.at)
    ensures forall k: nat :: PassesAt(w, replicas, gate, gate.Deadline(start), k) ==> v == Passed(k)
    ensures forall j: nat :: j < v.at ==> Waits(w, replicas, gate, gate.Deadline(start), j)
    ensures v.TimedOut? <==> !v.Passed? && w.now(v.at) >= gate.Deadline(start)
    ensures v.Cancelled? ==> w.cancelled(v.at)
  {
    var deadline := gate.Deadline(start);
    var streak := 0;
    var k := 0;
    while true
      invariant 0 <= k && streak == if k == 0 then 0 else Streak(w, replicas, k - 1)
      invariant forall j: nat :: j < k ==> Waits(w, replicas, gate, deadline, j)
      decreases deadline - w.now(k)
    {
      StreakCompletes(w, replicas, gate.successes, k);
      if !Waits(w, replicas, gate, deadline, k) { PassesOnce(w, replicas, gate, deadline, k); }
      if w.ready(k) >= replicas {
        streak := streak + 1;
        if streak >= gate.successes { return Passed(k); }
      } else {
        streak := 0;
      }
      if w.now(k) >= deadline { return TimedOut(k); }
      if w.cancelled(k) { return Cancelled(k); }
      assert SleepAdvances(w, gate, k);
      k := k + 1;
    }
  }
}
