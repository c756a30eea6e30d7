/** The scheduler's deadline arithmetic (src/scheduler/machine/policy.rs).
    Times and durations are whole nanoseconds. */
module SchedulerPolicy {
  import opened Arithmetic

  type Time = nat
  type Duration = nat

  const FAST_PREFETCH: Duration := 50_000_000
  const FIRST_PAINT_TIMEOUT: Duration := 200_000_000
  const ACTIVATION_REFRESH_TIMEOUT: Duration := 100_000_000
  const DEACTIVATION_GRACE: Duration := 1_000_000_000
  const RETRY_BASE: Duration := 100_000_000

  /** `t` is the anchor, or a whole number of cadence steps after it. */
  ghost predicate OnGrid(anchor: Time, cadence: Duration, t: Time) {
    exists k: nat :: t == GridPoint(anchor, cadence, k)
  }

  function GridPoint(anchor: Time, cadence: Duration, k: nat): Time {
    anchor + k * cadence
  }

  function RetryDelay(failures: nat, freshness: Duration): (r: Duration)
    ensures RETRY_BASE <= r <= Max(freshness, RETRY_BASE)
  {
    var shift := Min(SaturatingSub(failures, 1), 31);
    Min(RETRY_BASE * Pow2(shift), Max(freshness, RETRY_BASE))
  }

  function AdvancePast(deadline: Time, cadence: Duration, now: Time): Time {
    if cadence == 0 then now
    else
      var steps := SaturatingSub(now, deadline) / cadence + 1;
      deadline + steps * cadence
  }

  function LatestDueAtOrBefore(deadline: Time, cadence: Duration, now: Time): Time {
    if cadence == 0 || deadline >= now then deadline
    else deadline + (now - deadline) / cadence * cadence
  }

  function SkippedIntervals(deadline: Time, cadence: Duration, now: Time): nat {
    if cadence == 0 || now <= deadline then 0
    else (now - deadline) / cadence
  }

  function DueIntervals(deadline: Time, cadence: Duration, now: Time): nat {
    if cadence == 0 || now < deadline then 0
    else SkippedIntervals(deadline, cadence, now) + 1
  }

  // ----- what the arithmetic means on the deadline's grid

  lemma QuotientBounds(a: nat, b: nat)
    requires b > 0
    ensures a / b * b <= a < (a / b + 1) * b
  {
  }

  lemma {:induction false} ProductOrder(i: nat, j: nat, c: nat)
    requires i < j
    ensures i * c + c <= j * c
    decreases j
  {
    if j == i + 1 {
      assert (i + 1) * c == i * c + c;
    } else {
      ProductOrder(i, j - 1, c);
      assert j * c == (j - 1) * c + c;
    }
  }

  /** A due deadline moves to the first of its grid points after `now`. */
  lemma AdvancePastIsNextGridPoint(deadline: Time, cadence: Duration, now: Time)
    requires cadence > 0 && deadline <= now
    ensures var r := AdvancePast(deadline, cadence, now);
      && r > now && OnGrid(deadline, cadence, r)
      && forall t: Time :: OnGrid(deadline, cadence, t) && t > now ==> r <= t
  {
    var q := (now - deadline) / cadence;
    QuotientBounds(now - deadline, cadence);
    var r := AdvancePast(deadline, cadence, now);
    assert r == GridPoint(deadline, cadence, q + 1);
    forall t: Time | OnGrid(deadline, cadence, t) && t > now
      ensures r <= t
    {
      var k: nat :| t == GridPoint(deadline, cadence, k);
      if k < q {
        ProductOrder(k, q, cadence);
      } else if k > q + 1 {
        ProductOrder(q + 1, k, cadence);
      }
    }
  }

  /** The history deadline is the last grid point not after `now`, one step before the next deadline. */
  lemma LatestDueIsLastGridPoint(deadline: Time, cadence: Duration, now: Time)
    requires cadence > 0 && deadline <= now
    ensures var r := LatestDueAtOrBefore(deadline, cadence, now);
      && deadline <= r <= now && OnGrid(deadline, cadence, r)
      && AdvancePast(deadline, cadence, now) == r + cadence
      && forall t: Time :: OnGrid(deadline, cadence, t) && t <= now ==> t <= r
  {
    var q := (now - deadline) / cadence;
    QuotientBounds(now - deadline, cadence);
    var r := LatestDueAtOrBefore(deadline, cadence, now);
    if deadline == now { assert q == 0; }
    assert r == GridPoint(deadline, cadence, q);
    assert (q + 1) * cadence == q * cadence + cadence;
    forall t: Time | OnGrid(deadline, cadence, t) && t <= now
      ensures t <= r
    {
      var k: nat :| t == GridPoint(deadline, cadence, k);
      if k > q { ProductOrder(q, k, cadence); }
      else if k < q { ProductOrder(k, q, cadence); }
    }
  }

  /** A publication's deadline plus the deadlines it skipped are exactly the grid points stepped over. */
  lemma SkippedCountsGridPoints(deadline: Time, cadence: Duration, now: Time)
    requires cadence > 0 && deadline <= now
    ensures AdvancePast(deadline, cadence, now)
         == deadline + (1 + SkippedIntervals(deadline, cadence, now)) * cadence
    ensures DueIntervals(deadline, cadence, now) == 1 + SkippedIntervals(deadline, cadence, now)
  {
    if deadline == now { assert (now - deadline) / cadence == 0; }
  }

  /** The first failure waits for the base delay, each further one twice as long up to the cap; from the
      32nd on, where the shift saturates, the delay stays as it is. */
  lemma {:induction false} RetryDelayDoubles(failures: nat, freshness: Duration)
    requires failures >= 1
    ensures RetryDelay(1, freshness) == RETRY_BASE
    ensures RetryDelay(failures + 1, freshness)
         == if failures < 32 then Min(2 * RetryDelay(failures, freshness), Max(freshness, RETRY_BASE))
            else RetryDelay(failures, freshness)
    ensures RetryDelay(failures, freshness) <= RetryDelay(failures + 1, freshness)
  {
    if failures < 32 { assert Pow2(failures) == 2 * Pow2(failures - 1); }
    assert Pow2(0) == 1;
  }
}
