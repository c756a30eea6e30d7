/** Coalescing of sleep signals between two polls (src/adapters/shell.rs) against the suspend and resume
    machine they drive (src/scheduler/machine.rs; src/daemon/async_loop/control.rs turns `true` into a suspend
    and `false` into a resume). */
module SleepEvents {
  import opened Wrappers
  import opened SchedulerSpec

  datatype Coalesced = Coalesced(latest: Option<bool>, dirty: bool, resumePending: bool)

  function Pushed(c: Coalesced, preparing: bool): Coalesced {
    if c.latest == Some(preparing) then c
    else Coalesced(Some(preparing), true, c.resumePending || (c.latest == Some(true) && !preparing))
  }

  /** The signals a drain hands out. */
  function Owed(c: Coalesced): seq<bool> {
    if !c.dirty || c.latest.None? then []
    else if c.resumePending then (if c.latest.value then [true, false, true] else [true, false])
    else [c.latest.value]
  }

  function Drained(c: Coalesced): Coalesced {
    if !c.dirty then c else c.(dirty := false, resumePending := false)
  }

  class SleepEvents {
    var latest: Option<bool>
    var dirty: bool
    var resumePending: bool

    function Model(): Coalesced
      reads this
    {
      Coalesced(latest, dirty, resumePending)
    }

    constructor ()
      ensures Model() == Coalesced(None, false, false)
    {
      latest, dirty, resumePending := None, false, false;
    }

    method Push(preparing: bool)
      modifies this
      ensures Model() == Pushed(old(Model()), preparing)
    {
      if latest == Some(preparing) {
        return;
      }
      resumePending := resumePending || (latest == Some(true) && !preparing);
      latest := Some(preparing);
      dirty := true;
    }

    method Drain() returns (events: seq<bool>)
      modifies this
      ensures events == Owed(old(Model())) && Model() == Drained(old(Model()))
    {
      if !dirty {
        return [];
      }
      dirty := false;
      var resumes := resumePending;
      resumePending := false;
      match latest {
        case None => events := [];
        case Some(preparing) =>
          events := if !resumes then [preparing] else if preparing then [true, false, true] else [true, false];
      }
    }
  }

  // ----- what the signals do to the scheduler

  /** The lifecycle after one signal. */
  function Signalled(l: Lifecycle, preparing: bool): Lifecycle {
    if preparing then (if l == Running then Suspended else l) else (if l == Suspended then Running else l)
  }

  /** It is what the scheduler's own suspend and resume do. */
  lemma SchedulerFollowsSignal(x: Step)
    ensures SuspendNow(x).s.lifecycle == Signalled(x.s.lifecycle, true)
    ensures ResumeNow(x).s.lifecycle == Signalled(x.s.lifecycle, false)
  {
    hide CancelRuns, Reanchored, ResumedJobs, BaselineResets;
  }

  function After(l: Lifecycle, signals: seq<bool>): Lifecycle {
    if signals == [] then l else Signalled(After(l, signals[..|signals| - 1]), signals[|signals| - 1])
  }

  /** Some signal of the list wakes a suspended scheduler up. */
  predicate Wakes(l: Lifecycle, signals: seq<bool>) {
    signals != []
    && (Wakes(l, signals[..|signals| - 1])
        || (After(l, signals[..|signals| - 1]) == Suspended && !signals[|signals| - 1]))
  }

  /** A signal, or a poll that drains what has come in. */
  datatype Happening = Signal(preparing: bool) | Poll

  /** The coalescer; the scheduler fed by drains, and one fed every signal; the signals since the last drain. */
  datatype Fed = Fed(c: Coalesced, fed: Lifecycle, raw: Lifecycle, window: seq<bool>)

  function Next(r: Fed, h: Happening): Fed {
    match h
    case Signal(preparing) =>
      Fed(Pushed(r.c, preparing), r.fed, Signalled(r.raw, preparing), r.window + [preparing])
    case Poll => Fed(Drained(r.c), After(r.fed, Owed(r.c)), r.raw, [])
  }

  function RunFrom(start: Lifecycle, hs: seq<Happening>): Fed {
    if hs == [] then Fed(Coalesced(None, false, false), start, start, [])
    else Next(RunFrom(start, hs[..|hs| - 1]), hs[|hs| - 1])
  }

  ghost predicate Agrees(r: Fed) {
    && r.raw == After(r.fed, r.window) == After(r.fed, Owed(r.c))
    && (r.c.latest == Some(true) ==> r.raw != Running)
    && (r.c.latest == Some(false) ==> r.raw != Suspended)
    && (r.c.dirty ==> r.c.latest.Some?)
    && (r.c.resumePending ==> r.c.dirty)
    && (!r.c.dirty ==> r.raw == r.fed)
  }

  ghost predicate WakesAgree(r: Fed) {
    && (Wakes(r.fed, r.window) <==> Wakes(r.fed, Owed(r.c)))
    && (r.c.latest.None? ==> r.raw != Suspended)
    && (r.c.resumePending && r.fed in {Running, Suspended} ==> Wakes(r.fed, r.window))
    && (r.fed == Suspended && r.c.dirty ==> r.c.resumePending)
  }

  lemma Unfold(l: Lifecycle, signals: seq<bool>, preparing: bool)
    ensures After(l, signals + [preparing]) == Signalled(After(l, signals), preparing)
    ensures Wakes(l, signals + [preparing]) <==> Wakes(l, signals) || (After(l, signals) == Suspended && !preparing)
  {
    assert (signals + [preparing])[..|signals|] == signals;
  }

  /** What the possible drains do. */
  lemma Drains(l: Lifecycle)
    ensures After(l, []) == l && !Wakes(l, [])
    ensures forall b :: After(l, [b]) == Signalled(l, b) && (Wakes(l, [b]) <==> l == Suspended && !b)
    ensures After(l, [true, false]) == (if l == Suspended then Running else l)
    ensures After(l, [true, false, true]) == (if l == Running then Suspended else l)
    ensures Wakes(l, [true, false]) <==> l in {Running, Suspended}
    ensures Wakes(l, [true, false, true]) <==> l in {Running, Suspended}
  {
    forall b
      ensures After(l, [b]) == Signalled(l, b) && (Wakes(l, [b]) <==> l == Suspended && !b)
    {
      assert [b][..0] == [];
    }
    assert [true] + [false] == [true, false] && [true, false] + [true] == [true, false, true];
    Unfold(l, [true], false);
    Unfold(l, [true, false], true);
  }

  lemma NextAgrees(r: Fed, h: Happening)
    requires Agrees(r)
    ensures Agrees(Next(r, h))
  {
    hide After, Owed;
    var next := Next(r, h);
    OwedAfter(r.fed, r.c);
    OwedAfter(next.fed, next.c);
    if h.Signal? {
      Unfold(r.fed, r.window, h.preparing);
    } else {
      Drains(next.fed);
    }
  }

  lemma OwedAfter(l: Lifecycle, c: Coalesced)
    requires c.dirty ==> c.latest.Some?
    ensures After(l, Owed(c)) ==
      if !c.dirty then l
      else if !c.resumePending then Signalled(l, c.latest.value)
      else if c.latest.value then (if l == Running then Suspended else l)
      else (if l == Suspended then Running else l)
  {
    Drains(l);
  }

  lemma OwedWakes(l: Lifecycle, c: Coalesced)
    requires c.dirty ==> c.latest.Some?
    ensures After(l, Owed(c)) in {Running, Suspended} <==> l in {Running, Suspended}
    ensures Wakes(l, Owed(c)) <==>
      c.dirty && (if c.resumePending then l in {Running, Suspended} else l == Suspended && !c.latest.value)
  {
    Drains(l);
  }

  lemma NextWakesAgree(r: Fed, h: Happening)
    requires Agrees(r) && WakesAgree(r)
    ensures WakesAgree(Next(r, h))
  {
    OwedWakes(r.fed, r.c);
    OwedWakes(Next(r, h).fed, Next(r, h).c);
    Drains(Next(r, h).fed);
    hide After, Wakes, Owed;
    if h.Signal? {
      Unfold(r.fed, r.window, h.preparing);
      if !r.c.dirty && r.raw == Suspended {
        assert r.c.latest.value;
      }
    }
  }

  /** The signals rise once: `false` for a while, then `true` for a while. */
  predicate RisesOnce(signals: seq<bool>) {
    exists k :: 0 < k < |signals| && RisesAt(signals, k)
  }

  predicate RisesAt(signals: seq<bool>, k: nat) {
    k <= |signals| && Constant(signals[..k], false) && Constant(signals[k..], true)
  }

  predicate Constant(signals: seq<bool>, b: bool) {
    forall i :: 0 <= i < |signals| ==> signals[i] == b
  }

  /** The first window of a scheduler suspended from the start: what the coalescer holds, by the signals so far. */
  ghost predicate FirstWindow(r: Fed) {
    && r.fed == Suspended
    && (r.c.dirty <==> r.window != [])
    && (r.window == [] ==> r.c == Coalesced(None, false, false))
    && (r.window != [] ==> r.c.latest == Some(r.window[|r.window| - 1]))
    && (r.window != [] ==>
          (!r.c.resumePending <==> Constant(r.window, true) || Constant(r.window, false) || RisesOnce(r.window)))
    && (Wakes(r.fed, r.window) <==> r.window != [] && !Constant(r.window, true))
  }

  lemma FirstWindowNext(r: Fed, preparing: bool)
    requires Agrees(r) && FirstWindow(r)
    ensures FirstWindow(Next(r, Signal(preparing)))
  {
    OwedWakes(r.fed, r.c);
    Drains(r.fed);
    hide After, Wakes, Owed, RisesOnce, Constant;
    Unfold(r.fed, r.window, preparing);
    LongerWindow(r.window, preparing);
    if r.c.latest.Some? {
      assert r.c.latest.value ==> r.c.latest == Some(true);
      assert !r.c.latest.value ==> r.c.latest == Some(false);
    }
  }

  /** How one more signal changes the shape of a window. */
  lemma LongerWindow(w: seq<bool>, b: bool)
    ensures var longer := w + [b];
      && (Constant(longer, true) <==> Constant(w, true) && b)
      && (Constant(longer, false) <==> Constant(w, false) && !b)
      && (RisesOnce(longer) <==> b && (RisesOnce(w) || (w != [] && Constant(w, false))))
    ensures w != [] && (RisesOnce(w) || Constant(w, true)) ==> w[|w| - 1]
    ensures w != [] && Constant(w, false) ==> !w[|w| - 1]
    ensures RisesOnce(w) ==> !Constant(w, true)
    ensures w == [] ==> !RisesOnce(w) && Constant(w, true) && Constant(w, false)
  {
    var longer := w + [b];
    assert longer[|w|] == b && forall i :: 0 <= i < |w| ==> longer[i] == w[i];
    forall k | 0 < k < |w|
      ensures RisesAt(longer, k) <==> RisesAt(w, k) && b
    {
      RisesLonger(w, b, k);
    }
    if w != [] {
      assert longer[..|w|] == w && longer[|w|..] == [b];
      assert RisesAt(longer, |w|) <==> Constant(w, false) && b;
    }
    if RisesOnce(w) {
      var k :| 0 < k < |w| && RisesAt(w, k);
      assert w[k..][|w| - 1 - k] == w[|w| - 1] && w[..k][0] == w[0];
      if b { assert RisesAt(longer, k); }
    }
  }

  lemma RisesLonger(w: seq<bool>, b: bool, k: nat)
    requires k <= |w|
    ensures RisesAt(w + [b], k) <==> RisesAt(w, k) && b
  {
    var longer := w + [b];
    assert longer[..k] == w[..k] && longer[k..] == w[k..] + [b];
    assert longer[k..][|w| - k] == b;
    assert forall i :: 0 <= i < |w| - k ==> longer[k..][i] == w[k..][i];
  }

  /** Every signal of a list of happenings. */
  function Signals(hs: seq<Happening>): seq<bool> {
    if hs == [] then []
    else
      var last := hs[|hs| - 1];
      Signals(hs[..|hs| - 1]) + (if last.Signal? then [last.preparing] else [])
  }

  /** Nothing has been drained since the first signal. */
  predicate Undrained(hs: seq<Happening>) {
    forall i, j :: 0 <= i < j < |hs| && hs[i].Signal? ==> hs[j].Signal?
  }

  lemma UndrainedLonger(hs: seq<Happening>, h: Happening)
    ensures Undrained(hs + [h]) <==> Undrained(hs) && (h.Poll? ==> Signals(hs) == [])
  {
    var longer := hs + [h];
    NoSignals(hs);
    assert forall i :: 0 <= i < |hs| ==> longer[i] == hs[i];
    if Undrained(longer) && h.Poll? {
      assert forall i :: 0 <= i < |hs| ==> longer[i].Signal? ==> longer[|hs|].Signal?;
    }
  }

  lemma {:induction false} NoSignals(hs: seq<Happening>)
    ensures Signals(hs) == [] <==> forall i :: 0 <= i < |hs| ==> hs[i].Poll?
  {
    if hs != [] { NoSignals(hs[..|hs| - 1]); }
  }

  lemma PollAgrees(r: Fed)
    requires Agrees(r) && r.c.latest.Some?
    ensures WakesAgree(Next(r, Poll))
  {
    Drains(Next(r, Poll).fed);
    hide After, Wakes;
  }

  /** A scheduler suspended from the start is in its first window, or agrees like any other. */
  lemma {:induction false} SuspendedRun(hs: seq<Happening>)
    ensures var r := RunFrom(Suspended, hs);
      if Undrained(hs) then FirstWindow(r) && r.window == Signals(hs) else WakesAgree(r)
  {
    hide FirstWindow, WakesAgree, Undrained;
    if hs == [] {
      NothingYet();
    } else {
      var front, h := hs[..|hs| - 1], hs[|hs| - 1];
      var r := RunFrom(Suspended, front);
      assert hs == front + [h];
      SuspendedRun(front);
      RunAgrees(Suspended, front);
      UndrainedLonger(front, h);
      if !Undrained(front) {
        NextWakesAgree(r, h);
      } else if h.Signal? {
        FirstWindowNext(r, h.preparing);
      } else {
        FirstPoll(r);
      }
    }
  }

  lemma NothingYet()
    ensures Undrained([]) && FirstWindow(RunFrom(Suspended, [])) && RunFrom(Suspended, []).window == Signals([])
  {
    Drains(Suspended);
  }

  lemma FirstPoll(r: Fed)
    requires Agrees(r) && FirstWindow(r)
    ensures r.window == [] ==> FirstWindow(Next(r, Poll)) && Next(r, Poll).window == []
    ensures r.window != [] ==> WakesAgree(Next(r, Poll))
  {
    Drains(r.fed);
    if r.window != [] { PollAgrees(r); }
  }

  lemma {:induction false} RunAgrees(start: Lifecycle, hs: seq<Happening>)
    ensures Agrees(RunFrom(start, hs))
    ensures start != Suspended ==> WakesAgree(RunFrom(start, hs))
  {
    Drains(start);
    if hs != [] {
      RunAgrees(start, hs[..|hs| - 1]);
      NextAgrees(RunFrom(start, hs[..|hs| - 1]), hs[|hs| - 1]);
      if start != Suspended { NextWakesAgree(RunFrom(start, hs[..|hs| - 1]), hs[|hs| - 1]); }
    }
  }

  // ----- results

  /** Wherever the polls fall, the drained signals leave the scheduler, after each poll, in the lifecycle that
      the signals themselves would have; a drain hands out three at most. */
  lemma DrainsRefineSignals(start: Lifecycle, hs: seq<Happening>)
    ensures var r := RunFrom(start, hs + [Poll]);
      r.fed == r.raw && |Owed(RunFrom(start, hs).c)| <= 3
  {
    assert (hs + [Poll])[..|hs|] == hs;
    RunAgrees(start, hs);
  }

  /** A drain wakes the scheduler exactly when the signals since the drain before would have; the one exception
      is a scheduler already suspended before any signal, whose very first signals rise once before the first
      drain. The daemon starts running and is suspended by drained signals only, so it never is that one. */
  lemma NoResumeIsLostIff(start: Lifecycle, hs: seq<Happening>)
    ensures var r := RunFrom(start, hs);
      (Wakes(r.fed, Owed(r.c)) <==> Wakes(r.fed, r.window))
      <==> !(start == Suspended && Undrained(hs) && RisesOnce(Signals(hs)))
  {
    hide Wakes, Owed, Undrained, RunFrom, After;
    RunAgrees(start, hs);
    if start == Suspended {
      SuspendedRun(hs);
      if Undrained(hs) { FirstWindowWakes(RunFrom(start, hs)); }
    }
  }

  lemma FirstWindowWakes(r: Fed)
    requires Agrees(r) && FirstWindow(r)
    ensures (Wakes(r.fed, Owed(r.c)) <==> Wakes(r.fed, r.window)) <==> !RisesOnce(r.window)
  {
    hide Wakes, Owed, After, RisesOnce, Constant;
    OwedWakes(r.fed, r.c);
    if r.window == [] {
      LongerWindow(r.window, true);
    } else {
      var front, last := r.window[..|r.window| - 1], r.window[|r.window| - 1];
      assert r.window == front + [last];
      LongerWindow(front, last);
      LongerWindow(r.window, true);
    }
  }
}
