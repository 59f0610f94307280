/** Poll pacing and the attempt budget (backend/workers/scheduler.py,
    backend/services/watch_policy.py, backend/services/watch_service.py:606-652).
    Durations are whole microseconds; every random draw is a parameter. */
module PollTiming {
  import opened Wrappers

  const MIN_DELAY: nat := 1_000_000

  function Min(a: int, b: int): int {
    if a <= b then a else b
  }

  function Max(a: int, b: int): int {
    if a >= b then a else b
  }

  /** The pacing a service is built with. The constructor raises the cap to the interval. */
  datatype Pacing = Pacing(interval: nat, jitter: nat, maximum: nat) {
    predicate Valid() {
      0 < interval <= maximum && jitter < interval
    }

    predicate Draws(offset: int) {
      -(jitter as int) <= offset <= jitter
    }

    function NextDelay(offset: int): int {
      Max(MIN_DELAY, interval + offset)
    }

    function EarliestDelay(): nat {
      Max(MIN_DELAY, interval - jitter)
    }
  }

  /** The earliest delay is the exact lower edge of what a schedule can draw. */
  lemma EarliestIsTight(p: Pacing, offset: int)
    requires p.Valid() && p.Draws(offset)
    ensures p.EarliestDelay() <= p.NextDelay(offset) <= Max(MIN_DELAY, p.interval + p.jitter)
    ensures p.NextDelay(-(p.jitter as int)) == p.EarliestDelay()
  {
  }

  // -- the attempt budget -----------------------------------------------------------

  datatype Policy = Policy(requiredAttempts: nat, effectiveAttempts: nat, supportsDeadline: bool)

  function CeilDiv(n: nat, d: nat): nat
    requires d > 0
  {
    (n + d - 1) / d
  }

  function Remaining(now: nat, expiresAt: nat): nat {
    Max(0, expiresAt - now)
  }

  function Derive(p: Pacing, now: nat, expiresAt: nat, ceiling: nat): Policy {
    var required := CeilDiv(Remaining(now, expiresAt), p.EarliestDelay()) + 1;
    var effective := Min(required, ceiling);
    Policy(required, effective, effective == required)
  }

  lemma CeilDivBounds(n: nat, d: nat)
    requires d > 0
    ensures n <= CeilDiv(n, d) * d < n + d
  {
    var m := n + d - 1;
    assert m == d * (m / d) + m % d;
  }

  lemma MulGrows(a: nat, b: nat, d: nat)
    requires a <= b
    ensures a * d <= b * d
  {
  }

  lemma CeilDivIsLeast(n: nat, d: nat, k: nat)
    requires d > 0
    ensures k * d >= n <==> k >= CeilDiv(n, d)
  {
    var q := CeilDiv(n, d);
    CeilDivBounds(n, d);
    hide CeilDiv;
    if k >= q {
      MulGrows(q, k, d);
    } else {
      MulGrows(k + 1, q, d);
      assert (k + 1) * d == k * d + d;
    }
  }

  /** The required budget is the least count whose earliest possible checks reach the deadline, and what a
      watch is granted is the greatest count that exceeds neither that nor the ceiling. */
  lemma BudgetIsLeast(p: Pacing, now: nat, expiresAt: nat, ceiling: nat, attempts: nat)
    requires p.Valid() && attempts > 0 && ceiling > 0
    ensures var policy := Derive(p, now, expiresAt, ceiling);
            && (now + (attempts - 1) * p.EarliestDelay() >= expiresAt <==> attempts >= policy.requiredAttempts)
            && (policy.supportsDeadline <==> now + ceiling * p.EarliestDelay() >= expiresAt + p.EarliestDelay())
            && (attempts <= policy.effectiveAttempts <==> attempts <= policy.requiredAttempts && attempts <= ceiling)
  {
    var d := p.EarliestDelay();
    CeilDivIsLeast(Remaining(now, expiresAt), d, attempts - 1);
    CeilDivIsLeast(Remaining(now, expiresAt), d, ceiling - 1);
    assert ceiling * d == (ceiling - 1) * d + d;
  }

  /** Deriving again from the stored budget recovers the policy the watch was created with. */
  lemma PolicyRecovered(p: Pacing, now: nat, expiresAt: nat, ceiling: nat)
    requires p.Valid()
    ensures var policy := Derive(p, now, expiresAt, ceiling);
            Derive(p, now, expiresAt, policy.effectiveAttempts) == policy
  {
  }

  // -- outage backoff -----------------------------------------------------------------

  function Pow2(k: nat): (r: nat)
    ensures r > 0
  {
    if k == 0 then 1 else 2 * Pow2(k - 1)
  }

  lemma {:induction false} Pow2Grows(j: nat, k: nat)
    requires j <= k
    ensures Pow2(j) <= Pow2(k)
  {
    if j < k {
      Pow2Grows(j, k - 1);
    }
  }

  lemma DoublingsGrow(interval: nat, j: nat, k: nat)
    requires j <= k
    ensures interval * Pow2(j) <= interval * Pow2(k)
  {
    Pow2Grows(j, k);
    hide Pow2;
  }

  /** k is the least exponent whose doubled interval reaches the maximum. */
  predicate IsExponentLimit(interval: nat, maximum: nat, k: nat) {
    && interval * Pow2(k) >= maximum
    && (k > 0 ==> interval * Pow2(k - 1) < maximum)
  }

  lemma OneExponentLimit(interval: nat, maximum: nat, j: nat, k: nat)
    requires IsExponentLimit(interval, maximum, j) && IsExponentLimit(interval, maximum, k)
    ensures j == k
  {
    hide Pow2;
    if j < k {
      DoublingsGrow(interval, j, k - 1);
    } else if k < j {
      DoublingsGrow(interval, k, j - 1);
    }
  }

  lemma Doubled(interval: nat, k: nat)
    ensures interval * Pow2(k + 1) == (2 * interval) * Pow2(k)
  {
    assert Pow2(k + 1) == 2 * Pow2(k);
    hide Pow2;
  }

  lemma OneDoublingMore(interval: nat, maximum: nat, k: nat)
    requires interval < maximum && IsExponentLimit(2 * interval, maximum, k)
    ensures IsExponentLimit(interval, maximum, k + 1)
  {
    Doubled(interval, k);
    if k > 0 {
      Doubled(interval, k - 1);
    } else {
      assert interval * Pow2(0) == interval;
    }
    hide Pow2;
  }

  function ExponentLimit(interval: nat, maximum: nat): (k: nat)
    requires interval > 0
    ensures IsExponentLimit(interval, maximum, k)
    decreases maximum - interval
  {
    if interval >= maximum then 0
    else
      var k := ExponentLimit(2 * interval, maximum);
      OneDoublingMore(interval, maximum, k);
      k + 1
  }

  method FindExponentLimit(interval: nat, maximum: nat) returns (limit: nat)
    requires interval > 0
    ensures limit == ExponentLimit(interval, maximum)
  {
    limit := 0;
    var value := interval;
    while value < maximum
      invariant value == interval * Pow2(limit)
      invariant limit > 0 ==> interval * Pow2(limit - 1) < maximum
      invariant value > 0
      decreases maximum - value
    {
      value := value * 2;
      limit := limit + 1;
      assert interval * Pow2(limit) == 2 * (interval * Pow2(limit - 1));
    }
    OneExponentLimit(interval, maximum, limit, ExponentLimit(interval, maximum));
  }

  function SaturatingOutages(p: Pacing, value: nat): nat
    requires p.Valid()
  {
    Min(value, ExponentLimit(p.interval, p.maximum) + 1)
  }

  function OutageBase(p: Pacing, outages: nat): nat
    requires p.Valid() && outages > 0
  {
    if outages - 1 >= ExponentLimit(p.interval, p.maximum) then p.maximum else p.interval * Pow2(outages - 1)
  }

  function OutageDelay(p: Pacing, outages: nat, now: nat, expiresAt: nat, offset: int): Option<int>
    requires p.Valid() && outages > 0
  {
    var jittered := Min(Max(OutageBase(p, outages) + offset, MIN_DELAY), p.maximum);
    var remaining := expiresAt - now;
    if remaining < MIN_DELAY then None else Some(Min(jittered, remaining))
  }

  /** The exponent shortcut is exact: the base is the capped exponential for every count. */
  lemma BaseIsCappedExponential(p: Pacing, outages: nat)
    requires p.Valid() && outages > 0
    ensures OutageBase(p, outages) == Min(p.interval * Pow2(outages - 1), p.maximum)
    ensures p.interval <= OutageBase(p, outages)
  {
    var k := ExponentLimit(p.interval, p.maximum);
    assert Pow2(0) == 1;
    hide Pow2, ExponentLimit;
    if outages - 1 >= k {
      DoublingsGrow(p.interval, k, outages - 1);
    } else {
      DoublingsGrow(p.interval, outages - 1, k - 1);
      DoublingsGrow(p.interval, 0, outages - 1);
    }
  }

  /** The stored counter stops two past the last doubling that stays below the cap, and stopping it never
      changes any delay, now or after later outages. */
  lemma SaturationIsInvisible(p: Pacing, outages: nat, now: nat, expiresAt: nat, offset: int)
    requires p.Valid() && outages > 0
    ensures var kept := SaturatingOutages(p, outages);
            && 0 < kept <= outages && (kept > 1 ==> p.interval * Pow2(kept - 2) < p.maximum)
            && OutageDelay(p, kept, now, expiresAt, offset) == OutageDelay(p, outages, now, expiresAt, offset)
            && SaturatingOutages(p, kept + 1) == SaturatingOutages(p, outages + 1)
  {
    var k := ExponentLimit(p.interval, p.maximum);
    if outages > k + 1 {
      assert SaturatingOutages(p, outages) == k + 1;
    } else if outages > 1 {
      hide ExponentLimit;
      DoublingsGrow(p.interval, outages - 2, k - 1);
    }
  }

  /** The wait after the n-th outage in a row, before anything is drawn: the interval doubled n - 1 times,
      no more than the cap. */
  function Backoff(p: Pacing, outages: nat): nat
    requires outages > 0
  {
    Min(p.interval * Pow2(outages - 1), p.maximum)
  }

  /** The delay is that backoff moved by the draw, unless the floor, the cap or the deadline clips it. */
  lemma OutageDelayIs(p: Pacing, outages: nat, now: nat, expiresAt: nat, offset: int)
    requires p.Valid() && outages > 0 && expiresAt - now >= MIN_DELAY
    ensures var delay, aim := OutageDelay(p, outages, now, expiresAt, offset), Backoff(p, outages) + offset;
            var reach := Min(p.maximum, expiresAt - now);
            && delay.Some?
            && (MIN_DELAY <= aim <= reach ==> delay.value == aim)
            && (aim > reach ==> delay.value == reach)
            && (aim < MIN_DELAY ==> delay.value == Min(MIN_DELAY, p.maximum))
  {
    BaseIsCappedExponential(p, outages);
    hide Pow2, OutageBase;
  }

  /** Undrawn, each further outage doubles the wait until the cap. */
  lemma OutagesDouble(p: Pacing, outages: nat, now: nat, expiresAt: nat)
    requires p.Valid() && outages > 0 && p.interval >= MIN_DELAY && expiresAt - now >= p.maximum
    ensures OutageDelay(p, 1, now, expiresAt, 0) == Some(p.interval)
    ensures var delay, next := OutageDelay(p, outages, now, expiresAt, 0), OutageDelay(p, outages + 1, now, expiresAt, 0);
            delay.Some? && next == Some(Min(2 * delay.value, p.maximum))
  {
    OutageDelayIs(p, 1, now, expiresAt, 0);
    OutageDelayIs(p, outages, now, expiresAt, 0);
    OutageDelayIs(p, outages + 1, now, expiresAt, 0);
    BackoffDoubles(p, outages);
    hide Backoff, OutageDelay;
  }

  lemma BackoffDoubles(p: Pacing, outages: nat)
    requires p.Valid() && outages > 0
    ensures Backoff(p, 1) == p.interval && p.interval <= Backoff(p, outages) <= p.maximum
    ensures Backoff(p, outages + 1) == Min(2 * Backoff(p, outages), p.maximum)
  {
    Doubled(p.interval, outages - 1);
    DoublingsGrow(p.interval, 0, outages - 1);
    assert (2 * p.interval) * Pow2(outages - 1) == 2 * (p.interval * Pow2(outages - 1));
    assert Pow2(0) == 1;
    hide Pow2;
  }

  /** A delay exists exactly when the floor of lifetime remains; it then stays inside both caps,
      and falls short of the schedule's earliest delay only by ending at the deadline. */
  lemma OutageDelayBounds(p: Pacing, outages: nat, now: nat, expiresAt: nat, offset: int)
    requires p.Valid() && outages > 0 && p.Draws(offset)
    ensures var delay := OutageDelay(p, outages, now, expiresAt, offset);
            && (delay.None? <==> expiresAt - now < MIN_DELAY)
            && (delay.Some? ==>
                  && (delay.value >= MIN_DELAY <==> p.maximum >= MIN_DELAY)
                  && 0 < delay.value <= Min(p.maximum, expiresAt - now)
                  && (p.maximum >= MIN_DELAY ==> delay.value >= Min(p.EarliestDelay(), expiresAt - now)))
  {
    BaseIsCappedExponential(p, outages);
  }
}
