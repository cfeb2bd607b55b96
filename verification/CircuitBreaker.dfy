/** The Phira API circuit breaker: consecutive failures open it for a while; a failure after that while opens
    it again at once; a success closes it. */
module CircuitBreaker {
  const U64_MAX := 0xFFFF_FFFF_FFFF_FFFF

  datatype Policy = Policy(enabled: bool, threshold: nat, openMs: nat)

  /** What the configuration's clamping guarantees, and more: it clamps to 2..100 and 1000..300000. */
  predicate Sensible(p: Policy) { p.threshold >= 1 && p.openMs >= 1 }

  datatype Breaker = Breaker(failures: nat, trips: nat, openUntil: nat)

  const CLOSED := Breaker(0, 0, 0)

  function SaturatingAdd(a: nat, b: nat): nat { if a + b > U64_MAX then U64_MAX else a + b }

  predicate Admits(p: Policy, b: Breaker, now: nat) { !p.enabled || b.openUntil <= now }

  function Succeed(b: Breaker): Breaker { b.(failures := 0, openUntil := 0) }

  function Open(p: Policy, b: Breaker, now: nat): Breaker {
    Breaker(0, b.trips + 1, SaturatingAdd(now, p.openMs))
  }

  function Fail(p: Policy, b: Breaker, now: nat): Breaker {
    if !p.enabled then b
    else
      var probeFailed := b.openUntil > 0 && b.openUntil <= now;
      var counted := if probeFailed then b else b.(failures := b.failures + 1);
      if (if probeFailed then p.threshold else counted.failures) >= p.threshold then Open(p, counted, now) else counted
  }

  // ---- the breaker against its history --------------------------------------------------------------

  datatype Outcome = Success(at: nat) | Failure(at: nat)

  function After(p: Policy, h: seq<Outcome>): Breaker {
    if h == [] then CLOSED
    else
      var b := After(p, h[..|h| - 1]);
      match h[|h| - 1]
      case Success(_) => Succeed(b)
      case Failure(at) => Fail(p, b, at)
  }

  /** A clock that never runs backwards and never gets near the end of its range. */
  predicate Timed(p: Policy, h: seq<Outcome>) {
    && (forall i, j :: 0 <= i < j < |h| ==> h[i].at <= h[j].at)
    && (forall i :: 0 <= i < |h| ==> h[i].at + p.openMs <= U64_MAX)
  }

  /** The breaker opened at outcome `i`. */
  predicate TripsAt(p: Policy, h: seq<Outcome>, i: nat)
    requires i < |h|
  {
    After(p, h[..i + 1]).trips > After(p, h[..i]).trips
  }

  predicate NoSuccessAfter(h: seq<Outcome>, i: nat) { forall j :: i < j < |h| ==> h[j].Failure? }

  /** A trip no success has cleared yet. */
  predicate Standing(p: Policy, h: seq<Outcome>, i: nat)
    requires i < |h|
  {
    TripsAt(p, h, i) && NoSuccessAfter(h, i)
  }

  /** From outcome `k` on there is neither a success nor a trip, and `k` is as early as that allows. */
  predicate QuietFrom(p: Policy, h: seq<Outcome>, k: nat)
    requires k <= |h|
  {
    && (k > 0 ==> h[k - 1].Success? || TripsAt(p, h, k - 1))
    && forall i :: k <= i < |h| ==> h[i].Failure? && !TripsAt(p, h, i)
  }

  lemma TripsAtPrefix(p: Policy, h: seq<Outcome>, n: nat, i: nat)
    requires i < n <= |h|
    ensures TripsAt(p, h[..n], i) == TripsAt(p, h, i)
  {
    assert h[..n][..i + 1] == h[..i + 1] && h[..n][..i] == h[..i];
  }

  /** What the last outcome did. */
  lemma LastStep(p: Policy, h: seq<Outcome>)
    requires p.enabled && Sensible(p) && h != []
    ensures var n, before, after := |h| - 1, After(p, h[..|h| - 1]), After(p, h);
      && (h[n].Success? ==> !TripsAt(p, h, n) && after.openUntil == 0 && after.failures == 0)
      && (TripsAt(p, h, n) ==> after.openUntil == SaturatingAdd(h[n].at, p.openMs) && after.failures == 0)
      && (h[n].Failure? && !TripsAt(p, h, n) ==>
            after.openUntil == before.openUntil && after.failures == before.failures + 1 < p.threshold)
  {
    assert h[..|h|] == h;
  }

  lemma StandingPrefix(p: Policy, h: seq<Outcome>, i: nat)
    requires h != [] && i < |h| - 1
    ensures Standing(p, h, i) <==> Standing(p, h[..|h| - 1], i) && h[|h| - 1].Failure?
  {
    var init := h[..|h| - 1];
    TripsAtPrefix(p, h, |h| - 1, i);
    assert forall j :: i < j < |init| ==> init[j] == h[j];
  }

  lemma QuietExtends(p: Policy, h: seq<Outcome>, k: nat)
    requires h != [] && k < |h| && QuietFrom(p, h[..|h| - 1], k) && h[|h| - 1].Failure? && !TripsAt(p, h, |h| - 1)
    ensures QuietFrom(p, h, k)
  {
    var init := h[..|h| - 1];
    if k > 0 { TripsAtPrefix(p, h, |init|, k - 1); }
    forall i | k <= i < |h| ensures h[i].Failure? && !TripsAt(p, h, i) {
      if i < |init| {
        TripsAtPrefix(p, h, |init|, i);
        assert init[i] == h[i] && !TripsAt(p, init, i);
      }
    }
  }

  /** The stored count is the number of failures since the last success or trip, and stays below the
      threshold. */
  lemma {:induction false} CountIsFailuresSinceReset(p: Policy, h: seq<Outcome>) returns (k: nat)
    requires p.enabled && Sensible(p)
    ensures k <= |h| && QuietFrom(p, h, k) && After(p, h).failures == |h| - k
    ensures After(p, h).failures < p.threshold
  {
    if h == [] { return 0; }
    k := CountIsFailuresSinceReset(p, h[..|h| - 1]);
    LastStep(p, h);
    if h[|h| - 1].Success? || TripsAt(p, h, |h| - 1) {
      k := |h|;
    } else {
      QuietExtends(p, h, k);
    }
  }

  /** Is the breaker's stored time the time of the last trip no success has cleared? */
  predicate OpenUntilIs(p: Policy, h: seq<Outcome>, openUntil: nat, last: int) {
    if openUntil == 0 then forall i :: 0 <= i < |h| ==> !Standing(p, h, i)
    else
      && 0 <= last < |h| && Standing(p, h, last) && openUntil == h[last].at + p.openMs
      && forall i :: 0 <= i < |h| && Standing(p, h, i) ==> i <= last
  }

  lemma OpenUntilExtends(p: Policy, h: seq<Outcome>, openUntil: nat, last: int)
    requires h != [] && OpenUntilIs(p, h[..|h| - 1], openUntil, last) && h[|h| - 1].Failure? && !TripsAt(p, h, |h| - 1)
    ensures OpenUntilIs(p, h, openUntil, last)
  {
    var init := h[..|h| - 1];
    forall i | 0 <= i < |init| ensures Standing(p, h, i) <==> Standing(p, init, i) { StandingPrefix(p, h, i); }
  }

  lemma NothingStandsAfterSuccess(p: Policy, h: seq<Outcome>)
    requires h != [] && h[|h| - 1].Success? && !TripsAt(p, h, |h| - 1)
    ensures forall i :: 0 <= i < |h| ==> !Standing(p, h, i)
  {
    forall i | 0 <= i < |h| - 1 ensures !Standing(p, h, i) { StandingPrefix(p, h, i); }
  }

  lemma {:induction false} OpenUntilIsLastTrip(p: Policy, h: seq<Outcome>) returns (last: int)
    requires p.enabled && Sensible(p) && Timed(p, h)
    ensures OpenUntilIs(p, h, After(p, h).openUntil, last)
  {
    if h == [] { return -1; }
    var n := |h| - 1;
    last := OpenUntilIsLastTrip(p, h[..n]);
    LastStep(p, h);
    if h[n].Success? {
      NothingStandsAfterSuccess(p, h);
    } else if TripsAt(p, h, n) {
      last := n;
    } else {
      OpenUntilExtends(p, h, After(p, h).openUntil, last);
    }
  }

  /** A request is admitted exactly when every trip since the last success is at least `openMs` old. */
  lemma AdmittedIffNoRecentTrip(p: Policy, h: seq<Outcome>, now: nat)
    requires p.enabled && Sensible(p) && Timed(p, h) && (h != [] ==> h[|h| - 1].at <= now)
    ensures Admits(p, After(p, h), now) <==> forall i :: 0 <= i < |h| && Standing(p, h, i) ==> now - h[i].at >= p.openMs
  {
    var last := OpenUntilIsLastTrip(p, h);
  }

  lemma NotQuietLater(p: Policy, h: seq<Outcome>, j: nat, k: nat)
    requires j < k <= |h| && QuietFrom(p, h, j)
    ensures !QuietFrom(p, h, k)
  {
    assert h[k - 1].Failure? && !TripsAt(p, h, k - 1);
  }

  lemma QuietIsUnique(p: Policy, h: seq<Outcome>, j: nat, k: nat)
    requires j <= |h| && k <= |h| && QuietFrom(p, h, j) && QuietFrom(p, h, k)
    ensures j == k
  {
    forall n | j < n <= |h| ensures !QuietFrom(p, h, n) { NotQuietLater(p, h, j, n); }
    forall n | k < n <= |h| ensures !QuietFrom(p, h, n) { NotQuietLater(p, h, k, n); }
  }

  /** A failure opens the breaker exactly when it is the `threshold`-th since the last success or trip, or
      when the breaker had opened since the last success and its open time has run out. */
  lemma FailureTripsIff(p: Policy, h: seq<Outcome>, at: nat, k: nat)
    requires p.enabled && Sensible(p) && Timed(p, h + [Failure(at)]) && k <= |h| && QuietFrom(p, h, k)
    ensures TripsAt(p, h + [Failure(at)], |h|) <==>
      |h| - k + 1 >= p.threshold
      || ((exists i :: 0 <= i < |h| && Standing(p, h, i))
          && (forall i :: 0 <= i < |h| && Standing(p, h, i) ==> at - h[i].at >= p.openMs))
  {
    var all := h + [Failure(at)];
    assert all[..|h|] == h && all[..|h| + 1] == all;
    assert Timed(p, h) by { assert forall i :: 0 <= i < |h| ==> all[i] == h[i]; }
    var last := OpenUntilIsLastTrip(p, h);
    var j := CountIsFailuresSinceReset(p, h);
    QuietIsUnique(p, h, j, k);
  }

  function TripsIn(p: Policy, h: seq<Outcome>): nat {
    if h == [] then 0
    else
      var n := |h| - 1;
      TripsIn(p, h[..n]) + if TripsAt(p, h, n) then 1 else 0
  }

  /** The trip counter counts the times the breaker opened, one by one. */
  lemma {:induction false} TripsAreCounted(p: Policy, h: seq<Outcome>)
    ensures After(p, h).trips == TripsIn(p, h)
  {
    if h != [] {
      TripsAreCounted(p, h[..|h| - 1]);
      assert h[..|h|] == h;
    }
  }

  /** A disabled breaker never counts, never opens and admits everything. */
  lemma {:induction false} DisabledNeverOpens(p: Policy, h: seq<Outcome>, now: nat)
    requires !p.enabled
    ensures After(p, h) == CLOSED && Admits(p, After(p, h), now)
  {
    if h != [] { DisabledNeverOpens(p, h[..|h| - 1], now); }
  }

  class PhiraCircuitBreaker {
    const policy: Policy
    var consecutiveFailures: nat
    var trips: nat
    var rejected: nat
    var openUntilMs: nat

    constructor (p: Policy)
      ensures policy == p && View() == CLOSED && rejected == 0
      ensures consecutiveFailures == 0 && trips == 0 && openUntilMs == 0
    {
      policy := p;
      consecutiveFailures, trips, rejected, openUntilMs := 0, 0, 0, 0;
    }

    ghost function View(): Breaker reads this { Breaker(consecutiveFailures, trips, openUntilMs) }

    method AllowRequest(now: nat) returns (admitted: bool)
      modifies this`rejected
      ensures admitted == Admits(policy, View(), now)
      ensures rejected == old(rejected) + if admitted then 0 else 1
    {
      if !policy.enabled { return true; }
      if openUntilMs > now {
        rejected := rejected + 1;
        return false;
      }
      admitted := true;
    }

    method RecordSuccess()
      modifies this`consecutiveFailures, this`openUntilMs
      ensures View() == Succeed(old(View()))
    {
      consecutiveFailures, openUntilMs := 0, 0;
    }

    method RecordFailure(now: nat)
      modifies this`consecutiveFailures, this`openUntilMs, this`trips
      ensures View() == Fail(policy, old(View()), now)
    {
      if !policy.enabled { return; }
      var probeFailed := openUntilMs > 0 && openUntilMs <= now;
      var failures := policy.threshold;
      if !probeFailed {
        consecutiveFailures := consecutiveFailures + 1;
        failures := consecutiveFailures;
      }
      if failures >= policy.threshold {
        openUntilMs := SaturatingAdd(now, policy.openMs);
        consecutiveFailures := 0;
        trips := trips + 1;
      }
    }
  }
}
