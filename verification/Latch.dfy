/** The latch behind sustained notifications (src/notify.rs, src/domain/state.rs): it trips once a value has
    stayed at the trip point for the hold time, and then waits for a value below the clear point. Values and
    times are real numbers. */
module Latch {
  import opened Wrappers

  type Time = real

  datatype Limits = Limits(trip: real, clear: real, hold: real)

  datatype Sample = Sample(value: real, at: Time)

  datatype LatchState = LatchState(active: bool, since: Option<Time>)

  const RESET := LatchState(false, None)

  function Elapsed(now: Time, since: Time): real {
    if now < since then 0.0 else now - since
  }

  /** One sample: the latch it leaves, and whether it trips. */
  function Advanced(latch: LatchState, x: Sample, limits: Limits): (LatchState, bool) {
    if latch.active then (if x.value < limits.clear then RESET else latch, false)
    else if x.value < limits.trip then (RESET, false)
    else
      var since := if latch.since.Some? then latch.since.value else x.at;
      var trips := Elapsed(x.at, since) >= limits.hold;
      (LatchState(trips, Some(since)), trips)
  }

  class NotificationLatch {
    var active: bool
    var since: Option<Time>

    function Model(): LatchState
      reads this
    {
      LatchState(active, since)
    }

    constructor ()
      ensures Model() == RESET
    {
      active, since := false, None;
    }

    /** Advances the latch; true only on its trip edge. */
    method Sustained(value: real, limits: Limits, now: Time) returns (fired: bool)
      modifies this
      ensures (Model(), fired) == Advanced(old(Model()), Sample(value, now), limits)
    {
      if active {
        if value < limits.clear {
          active, since := false, None;
        }
        return false;
      }
      if value < limits.trip {
        since := None;
        return false;
      }
      if since.None? {
        since := Some(now);
      }
      if Elapsed(now, since.value) < limits.hold {
        return false;
      }
      active := true;
      return true;
    }
  }

  // ----- a trace of samples

  /** The latch before sample `i`. */
  function Before(trace: seq<Sample>, limits: Limits, i: nat): LatchState
    requires i <= |trace|
  {
    if i == 0 then RESET else Advanced(Before(trace, limits, i - 1), trace[i - 1], limits).0
  }

  predicate Fires(trace: seq<Sample>, limits: Limits, i: nat)
    requires i < |trace|
  {
    Advanced(Before(trace, limits, i), trace[i], limits).1
  }

  /** Some value strictly between samples `j` and `i` is below the clear point. */
  ghost predicate Released(trace: seq<Sample>, limits: Limits, j: nat, i: nat)
    requires i <= |trace|
  {
    exists k :: j < k < i && trace[k].value < limits.clear
  }

  /** Every alert before sample `i` had been released before sample `s`. */
  ghost predicate Armed(trace: seq<Sample>, limits: Limits, s: nat, i: nat)
    requires s <= i <= |trace|
  {
    forall j :: 0 <= j < i && Fires(trace, limits, j) ==> Released(trace, limits, j, s)
  }

  /** The values from sample `s` up to sample `i` stay at the trip point, the latch being armed throughout. */
  ghost predicate Stretch(trace: seq<Sample>, limits: Limits, s: nat, i: nat)
    requires i <= |trace|
  {
    && s < i && Armed(trace, limits, s, i)
    && forall k :: s <= k < i ==> trace[k].value >= limits.trip
  }

  ghost predicate Monotone(trace: seq<Sample>) {
    forall i, j :: 0 <= i < j < |trace| ==> trace[i].at <= trace[j].at
  }

  /** Some alert before sample `i` is still unreleased. */
  ghost predicate Unreleased(trace: seq<Sample>, limits: Limits, i: nat)
    requires i <= |trace|
  {
    exists j :: 0 <= j < i && Fires(trace, limits, j) && !Released(trace, limits, j, i)
  }

  ghost predicate NoStretch(trace: seq<Sample>, limits: Limits, i: nat)
    requires i <= |trace|
  {
    forall s :: 0 <= s < i ==> !Stretch(trace, limits, s, i)
  }

  /** The longest stretch up to sample `i` began at the given time. */
  ghost predicate StretchSince(trace: seq<Sample>, limits: Limits, i: nat, at: Time)
    requires i <= |trace|
  {
    exists s0 :: 0 <= s0 < i && Stretch(trace, limits, s0, i) && trace[s0].at == at
                 && forall s :: 0 <= s < s0 ==> !Stretch(trace, limits, s, i)
  }

  /** What the latch before sample `i` says about the samples seen. */
  ghost predicate Explains(trace: seq<Sample>, limits: Limits, i: nat)
    requires i <= |trace|
  {
    var latch := Before(trace, limits, i);
    && (latch.active <==> Unreleased(trace, limits, i))
    && (!latch.active ==>
          if latch.since.None? then NoStretch(trace, limits, i) else StretchSince(trace, limits, i, latch.since.value))
  }

  lemma {:induction false} LatchExplains(trace: seq<Sample>, limits: Limits, i: nat)
    requires i <= |trace|
    ensures Explains(trace, limits, i)
  {
    hide Released, Stretch, Advanced;
    if i > 0 {
      LatchExplains(trace, limits, i - 1);
      ExplainsNext(trace, limits, i - 1);
    }
  }

  lemma ReleasedLater(trace: seq<Sample>, limits: Limits, j: nat, i: nat)
    requires i < |trace|
    ensures Released(trace, limits, j, i) ==> Released(trace, limits, j, i + 1)
    ensures Released(trace, limits, j, i + 1) ==> Released(trace, limits, j, i) || trace[i].value < limits.clear
    ensures j < i && trace[i].value < limits.clear ==> Released(trace, limits, j, i + 1)
    ensures !Released(trace, limits, i, i + 1)
  {
  }

  lemma StretchShorter(trace: seq<Sample>, limits: Limits, s: nat, i: nat)
    requires s < i < |trace| && Stretch(trace, limits, s, i + 1)
    ensures Stretch(trace, limits, s, i)
  {
    hide Released;
  }

  /** An alert not yet released disarms the latch. */
  lemma UnreleasedDisarms(trace: seq<Sample>, limits: Limits, j: nat, s: nat, i: nat, next: nat)
    requires j < next && s <= i <= next <= |trace|
    requires Fires(trace, limits, j) && !Released(trace, limits, j, i)
    ensures !Armed(trace, limits, s, next)
  {
    hide Fires;
  }

  lemma ActiveNext(trace: seq<Sample>, limits: Limits, i: nat)
    requires i < |trace| && Unreleased(trace, limits, i)
    ensures !Fires(trace, limits, i) && trace[i].value >= limits.clear ==> Unreleased(trace, limits, i + 1)
    ensures !Fires(trace, limits, i) && trace[i].value < limits.clear ==>
      !Unreleased(trace, limits, i + 1) && NoStretch(trace, limits, i + 1)
  {
    hide Released, Fires;
    var j :| 0 <= j < i && Fires(trace, limits, j) && !Released(trace, limits, j, i);
    var next := i + 1;
    forall n | 0 <= n < i
      ensures trace[i].value < limits.clear ==> Released(trace, limits, n, next)
    {
      ReleasedLater(trace, limits, n, i);
    }
    ReleasedLater(trace, limits, j, i);
    forall s | 0 <= s < next
      ensures !Stretch(trace, limits, s, next)
    {
      UnreleasedDisarms(trace, limits, j, s, i, next);
    }
  }

  lemma IdleStaysArmed(trace: seq<Sample>, limits: Limits, i: nat)
    requires i < |trace| && !Unreleased(trace, limits, i)
    ensures Armed(trace, limits, i, i)
    ensures Unreleased(trace, limits, i + 1) <==> Fires(trace, limits, i)
  {
    hide Released, Fires;
    var next := i + 1;
    forall j | 0 <= j < i && Fires(trace, limits, j)
      ensures Released(trace, limits, j, i) && Released(trace, limits, j, next)
    {
      ReleasedLater(trace, limits, j, i);
    }
    ReleasedLater(trace, limits, i, i);
  }

  lemma BelowTripNoStretch(trace: seq<Sample>, limits: Limits, i: nat)
    requires i < |trace| && trace[i].value < limits.trip
    ensures NoStretch(trace, limits, i + 1)
  {
    hide Armed;
  }

  lemma StretchNext(trace: seq<Sample>, limits: Limits, i: nat, next: nat)
    requires next == i + 1 <= |trace| && Explains(trace, limits, i) && !Unreleased(trace, limits, i)
    requires trace[i].value >= limits.trip && !Fires(trace, limits, i)
    ensures var since := Before(trace, limits, i).since;
      StretchSince(trace, limits, next, if since.Some? then since.value else trace[i].at)
  {
    hide Released, Explains, Fires, Unreleased;
    var s0 := FirstOfStretch(trace, limits, i);
    assert Stretch(trace, limits, s0, next);
    forall s | 0 <= s < s0
      ensures !Stretch(trace, limits, s, next)
    {
      if Stretch(trace, limits, s, next) { StretchShorter(trace, limits, s, i); }
    }
  }

  /** Where the stretch that the latch is timing began; the current sample when it begins one. */
  lemma FirstOfStretch(trace: seq<Sample>, limits: Limits, i: nat) returns (s0: nat)
    requires i < |trace| && Explains(trace, limits, i) && !Unreleased(trace, limits, i)
    ensures s0 <= i && Armed(trace, limits, s0, i)
    ensures forall k :: s0 <= k < i ==> trace[k].value >= limits.trip
    ensures var since := Before(trace, limits, i).since;
      trace[s0].at == if since.Some? then since.value else trace[i].at
    ensures forall s :: 0 <= s < s0 ==> !Stretch(trace, limits, s, i)
  {
    hide Unreleased, Armed;
    IdleStaysArmed(trace, limits, i);
    if Before(trace, limits, i).since.Some? {
      s0 :| 0 <= s0 < i && Stretch(trace, limits, s0, i) && trace[s0].at == Before(trace, limits, i).since.value
            && forall s :: 0 <= s < s0 ==> !Stretch(trace, limits, s, i);
    } else {
      s0 := i;
    }
  }

  lemma ExplainsNext(trace: seq<Sample>, limits: Limits, i: nat)
    requires i < |trace| && Explains(trace, limits, i)
    ensures Explains(trace, limits, i + 1)
  {
    hide Unreleased, NoStretch, StretchSince;
    if Before(trace, limits, i).active {
      ActiveNext(trace, limits, i);
    } else {
      IdleStaysArmed(trace, limits, i);
      if trace[i].value < limits.trip {
        BelowTripNoStretch(trace, limits, i);
      } else if !Fires(trace, limits, i) {
        StretchNext(trace, limits, i, i + 1);
      }
    }
  }

  // ----- results

  /** From sample `s` to sample `i` the value stays at the trip point for the hold time, with every alert
      before `i` released before `s`. */
  ghost predicate Holds(trace: seq<Sample>, limits: Limits, s: nat, i: nat)
    requires s <= i < |trace|
  {
    && Armed(trace, limits, s, i)
    && (forall k :: s <= k <= i ==> trace[k].value >= limits.trip)
    && Elapsed(trace[i].at, trace[s].at) >= limits.hold
  }

  /** The latch trips at sample `i` exactly when some stretch of values at the trip point ends there, begun
      after every earlier alert was released, and spans the hold time. */
  lemma FiresExactlyAfterHold(trace: seq<Sample>, limits: Limits, i: nat)
    requires i < |trace| && Monotone(trace)
    ensures Fires(trace, limits, i) <==> exists s :: 0 <= s <= i && Holds(trace, limits, s, i)
  {
    hide Released, Stretch, Unreleased, Armed, Monotone;
    LatchExplains(trace, limits, i);
    if Before(trace, limits, i).active {
      NeverArmed(trace, limits, i);
    } else {
      var s0 := FirstOfStretch(trace, limits, i);
      LongestDecides(trace, limits, i, s0);
    }
  }

  lemma LongestDecides(trace: seq<Sample>, limits: Limits, i: nat, s0: nat)
    requires s0 <= i < |trace| && Monotone(trace) && Armed(trace, limits, s0, i)
    requires forall k :: s0 <= k < i ==> trace[k].value >= limits.trip
    requires forall s :: 0 <= s < s0 ==> !Stretch(trace, limits, s, i)
    ensures (exists s :: 0 <= s <= i && Holds(trace, limits, s, i)) <==>
      trace[i].value >= limits.trip && Elapsed(trace[i].at, trace[s0].at) >= limits.hold
  {
    hide Armed;
    if s :| 0 <= s <= i && Holds(trace, limits, s, i) {
      assert trace[i].value >= limits.trip;
      if s < i { assert Stretch(trace, limits, s, i); }
      assert s0 <= s;
      assert trace[s0].at <= trace[s].at;
    }
    if trace[i].value >= limits.trip && Elapsed(trace[i].at, trace[s0].at) >= limits.hold {
      assert Holds(trace, limits, s0, i);
    }
  }

  lemma NeverArmed(trace: seq<Sample>, limits: Limits, i: nat)
    requires i < |trace| && Unreleased(trace, limits, i)
    ensures forall s :: 0 <= s <= i ==> !Armed(trace, limits, s, i)
  {
    hide Released, Fires, Armed;
    var j :| 0 <= j < i && Fires(trace, limits, j) && !Released(trace, limits, j, i);
    forall s | 0 <= s <= i
      ensures !Armed(trace, limits, s, i)
    {
      UnreleasedDisarms(trace, limits, j, s, i, i);
    }
  }

  /** Between two alerts there is always a value below the clear point. */
  lemma AlertsAreSeparated(trace: seq<Sample>, limits: Limits, j: nat, i: nat)
    requires j < i < |trace| && Fires(trace, limits, j) && Fires(trace, limits, i)
    ensures exists k :: j < k < i && trace[k].value < limits.clear
  {
    LatchExplains(trace, limits, i);
    assert !Unreleased(trace, limits, i);
    assert Released(trace, limits, j, i);
  }
}
