/** The clocks of the scheduler: no display deadline is lost or counted twice however the clock is
    sampled, and a processed instant leaves every timer in the future. */
module SchedulerTiming {
  import opened Arithmetic
  import opened Wrappers
  import opened SchedulerPolicy
  import opened SchedulerModel
  import opened SchedulerSpec
  import opened SchedulerSafety
  import opened SchedulerSteps
  import opened SchedulerInvariant
  import opened SchedulerDispatch
  import opened SchedulerRuns

  // ----- counting display deadlines

  function DisplayWeight(a: SchedulerAction): nat {
    if a.PublishDisplay? && a.why == DisplayDeadline then 1 + a.skipped else 0
  }

  /** The display deadlines accounted for by a transition's publications: published plus skipped. */
  function DisplayCount(acts: seq<SchedulerAction>): nat {
    if acts == [] then 0 else DisplayWeight(acts[0]) + DisplayCount(acts[1..])
  }

  lemma {:induction false} CountAppend(a: seq<SchedulerAction>, b: seq<SchedulerAction>)
    ensures DisplayCount(a + b) == DisplayCount(a) + DisplayCount(b)
  {
    if a == [] {
      assert a + b == b;
    } else {
      assert (a + b)[1..] == a[1..] + b;
      CountAppend(a[1..], b);
    }
  }

  lemma {:induction false} CountUpdate(acts: seq<SchedulerAction>, i: nat, a: SchedulerAction)
    requires i < |acts|
    ensures DisplayCount(acts[i := a]) == DisplayCount(acts) - DisplayWeight(acts[i]) + DisplayWeight(a)
  {
    if i > 0 {
      assert acts[i := a][1..] == acts[1..][i - 1 := a];
      CountUpdate(acts[1..], i - 1, a);
    } else {
      assert acts[i := a][1..] == acts[1..];
    }
  }

  lemma {:induction false} CountNone(acts: seq<SchedulerAction>)
    requires forall a :: a in acts ==> !a.PublishDisplay?
    ensures DisplayCount(acts) == 0
  {
    if acts != [] {
      assert acts[0] in acts;
      CountNone(acts[1..]);
    }
  }

  lemma {:induction false} CountInsert(a: SchedulerAction, acts: seq<SchedulerAction>)
    ensures DisplayCount(InsertAction(a, acts)) == DisplayWeight(a) + DisplayCount(acts)
  {
    if acts == [] || ActionPriority(a) <= ActionPriority(acts[0]) {
      assert ([a] + acts)[1..] == acts;
    } else {
      CountInsert(a, acts[1..]);
      assert InsertAction(a, acts)[1..] == InsertAction(a, acts[1..]);
    }
  }

  lemma {:induction false} CountSorted(acts: seq<SchedulerAction>)
    ensures DisplayCount(SortActions(acts)) == DisplayCount(acts)
  {
    if acts != [] {
      CountSorted(acts[1..]);
      CountInsert(acts[0], SortActions(acts[1..]));
    }
  }

  lemma PublishCount(o: Outbound, why: PublishReason, deadline: Option<Time>, skipped: nat, panel: bool, tooltip: bool)
    requires why == DisplayDeadline ==> panel
    ensures DisplayCount(Publish(o, why, deadline, skipped, panel, tooltip).acts)
         == DisplayCount(o.acts) + if why == DisplayDeadline then 1 + skipped else 0
  {
    hide HasTooltipPublication;
    var i := FirstRefresh(o.acts);
    if panel && tooltip && i < |o.acts| {
      var merged := o.acts[i].(why := why, displayDeadline := deadline, skipped := skipped, panel := true, tooltip := true);
      CountUpdate(o.acts, i, merged);
    }
    var id := o.feed.nextPublicationId;
    CountAppend(o.acts, [PublishDisplay(id, why, deadline, skipped, panel, tooltip)]);
  }

  lemma {:induction false} StartEachCount(x: Step, cs: seq<Candidate>)
    requires Listed(x.s.runs.jobs, cs)
    ensures DisplayCount(StartEach(x, cs).acts) == DisplayCount(x.acts)
  {
    hide Launch, TicketFor;
    if cs != [] {
      var last := |cs| - 1;
      var y := StartEach(x, cs[..last]);
      StartEachCount(x, cs[..last]);
      CountAppend(y.acts, [StartJob(TicketFor(y.s, cs[last].id))]);
    }
  }

  // ----- the surface timers once the first paint is out

  /** The parts of a state that decide the display clock and the job timers. */
  ghost predicate SameClocks(a: State, b: State) {
    && a.now == b.now && a.settings == b.settings && a.lifecycle == b.lifecycle && a.handshake == b.handshake
    && b.runs.jobs.Keys == a.runs.jobs.Keys
    && forall id :: id in a.runs.jobs ==>
         && b.runs.jobs[id].spec == a.runs.jobs[id].spec
         && b.runs.jobs[id].nominalDue == a.runs.jobs[id].nominalDue
  }

  lemma DeactivationClocks(x: Step)
    requires PaintOk(x.s.paint)
    ensures var y := ExpireDeactivation(x);
      SameClocks(x.s, y.s) && y.s.paint == x.s.paint && DisplayCount(y.acts) == DisplayCount(x.acts)
      && (y.s.view.deactivationDeadline.None? || y.s.view.deactivationDeadline.value > x.s.now)
      && y.s.view.activationDeadline == x.s.view.activationDeadline
  {
    hide RefreshDemand, PaintOk, DisplayCount, CurrentDemand;
    var s1 := x.s.(view := x.s.view.(deactivationDeadline := None, effectivePresented := false));
    RefreshDemandClocks(Step(s1, x.acts));
  }

  lemma RefreshDemandClocks(x: Step)
    ensures var y := RefreshDemand(x, true);
      SameClocks(x.s, y.s) && y.s.paint == x.s.paint && y.s.view == x.s.view && DisplayCount(y.acts) == DisplayCount(x.acts)
  {
    hide Moved, AddTickets, CurrentDemand, PageWork, CancelActions, DisplayCount, DemandRefreshed, Landed;
    var demanded := CurrentDemand(x.s);
    var jobs := DemandRefreshed(x.s.runs.jobs, demanded, x.s.now);
    var cancels := CancelActions(Moved(jobs, PageWork(x.s.runs.jobs.Keys - demanded)), DemandEnded);
    CountNone(cancels);
    CountAppend(x.acts, cancels);
    RefreshedTimers(x.s.runs.jobs, demanded, PageWork(x.s.runs.jobs.Keys - demanded), x.s.now);
  }

  lemma RefreshedTimers(jobs: JobTable, demanded: set<JobId>, ended: set<JobId>, now: Time)
    ensures var after := Landed(DemandRefreshed(jobs, demanded, now), ended);
      && after.Keys == jobs.Keys
      && forall id :: id in jobs ==> after[id].spec == jobs[id].spec && after[id].nominalDue == jobs[id].nominalDue
  {
  }

  lemma ActivationClocks(x: Step)
    ensures var y := ExpireActivation(x);
      SameClocks(x.s, y.s) && y.s.paint == x.s.paint && DisplayCount(y.acts) == DisplayCount(x.acts)
      && (y.s.view.activationDeadline.None? || y.s.view.activationDeadline.value > x.s.now)
      && y.s.view.deactivationDeadline == x.s.view.deactivationDeadline
  {
    hide Publish;
    PublishCount(Outbound(x.s.feed, x.acts), TooltipRefresh, None, 0, false, x.s.view.presented);
  }

  lemma TickClocks(x: Step)
    requires PaintOk(x.s.paint) && x.s.paint.firstPaintIssued && x.s.settings.displayInterval > 0
    ensures var y := DisplayTick(x);
      SameClocks(x.s, y.s) && y.s.view == x.s.view && PaintOk(y.s.paint) && y.s.paint.firstPaintIssued
      && y.s.paint.nextDisplay.value
           == x.s.paint.nextDisplay.value + (DisplayCount(y.acts) - DisplayCount(x.acts)) * x.s.settings.displayInterval
      && DisplayCount(y.acts) - DisplayCount(x.acts)
           == DueIntervals(x.s.paint.nextDisplay.value, x.s.settings.displayInterval, x.s.now)
      && y.s.paint.nextDisplay.value > x.s.now
  {
    hide Publish, AdvancePast, SkippedIntervals, OnGrid;
    if Due(x.s.paint.nextDisplay, x.s.now) {
      var deadline := x.s.paint.nextDisplay.value;
      var skipped := SkippedIntervals(deadline, x.s.settings.displayInterval, x.s.now);
      PublishCount(Outbound(x.s.feed, x.acts), DisplayDeadline, Some(deadline), skipped, true,
                   x.s.view.effectivePresented && x.s.view.presented);
      SkippedCountsGridPoints(deadline, x.s.settings.displayInterval, x.s.now);
      AdvancePastIsNextGridPoint(deadline, x.s.settings.displayInterval, x.s.now);
    }
  }

  lemma SameClocksChain(a: State, b: State, c: State)
    requires SameClocks(a, b) && SameClocks(b, c)
    ensures SameClocks(a, c)
  {
  }

  /** After the first paint, processing an instant publishes or skips exactly the display deadlines
      that are due and leaves the surface timers in the future. */
  lemma TimersTick(x: Step)
    requires PaintOk(x.s.paint) && x.s.paint.firstPaintIssued && x.s.settings.displayInterval > 0
    ensures var y := ExpireTimers(x);
      && SameClocks(x.s, y.s) && PaintOk(y.s.paint) && y.s.paint.firstPaintIssued
      && y.s.paint.nextDisplay.value
           == x.s.paint.nextDisplay.value + (DisplayCount(y.acts) - DisplayCount(x.acts)) * x.s.settings.displayInterval
      && DisplayCount(y.acts) - DisplayCount(x.acts)
           == DueIntervals(x.s.paint.nextDisplay.value, x.s.settings.displayInterval, x.s.now)
      && y.s.paint.nextDisplay.value > x.s.now
      && (y.s.view.deactivationDeadline.None? || y.s.view.deactivationDeadline.value > x.s.now)
      && (y.s.view.activationDeadline.None? || y.s.view.activationDeadline.value > x.s.now)
  {
    hide ExpireDeactivation, ExpireActivation, DisplayTick, IssueFirstPaint, DueIntervals;
    var a := ExpireDeactivation(x);
    DeactivationClocks(x);
    var b := ExpireFirstPaint(a);
    assert b == a;
    var c := ExpireActivation(b);
    ActivationClocks(b);
    TickClocks(c);
    assert SameClocks(x.s, a.s) && SameClocks(a.s, c.s) && SameClocks(c.s, DisplayTick(c).s);
    SameClocksChain(x.s, a.s, c.s);
    SameClocksChain(x.s, c.s, DisplayTick(c).s);
  }

  // ----- one clock event

  /** A started, running, painted scheduler with a positive display interval. */
  ghost predicate Ticking(s: State) {
    Inv(s) && s.lifecycle == Running && s.paint.firstPaintIssued && s.paint.nextDisplay.Some?
    && s.settings.displayInterval > 0
  }

  /** One clock event moves the display deadline by exactly the deadlines it accounts for. */
  lemma TimeAdvancedTicks(s: State, at: Time)
    requires Ticking(s) && s.now <= at
    ensures var out := Handle(s, TimeAdvanced(at));
      && out.s.now == at && Ticking(out.s)
      && out.s.settings == s.settings
      && out.s.paint.nextDisplay.value > at
      && out.s.paint.nextDisplay.value
           == s.paint.nextDisplay.value + DisplayCount(out.acts) * s.settings.displayInterval
      && DisplayCount(out.acts) == DueIntervals(s.paint.nextDisplay.value, s.settings.displayInterval, at)
  {
    hide ExpireTimers, Inv, TimedJobs, Dispatch, NextWake, SortActions, Occupancy, TicketsCurrent, DueIntervals, CurrentDemand, SameClocks, RunsFollowActions;
    var e := TimeAdvanced(at);
    var s' := s.(now := at);
    assert s.lifecycle != Unstarted && PaintOk(s.paint) by { InvPaint(s); }
    assert EarlyRejection(s, e).None?;
    var x := Step(s', []);
    TimersTick(x);
    var y := ExpireTimers(x);
    var z := Step(TimeJobs(y.s), y.acts);
    assert SameClocks(s', y.s) ==> y.s.now == at && y.s.settings == s.settings && y.s.lifecycle == Running by { ClockFrame(s', y.s); }
    assert Apply(s', e) == (z, Accepted);
    SettleClocks(z);
    CountSorted(Settle(z, Accepted).acts);
    HandleKeepsInvariant(s, e);
  }

  lemma InvPaint(s: State)
    requires Inv(s) && s.lifecycle == Running
    ensures s.lifecycle != Unstarted && PaintOk(s.paint) && ViewOk(s.view)
  {
  }

  lemma ClockFrame(a: State, b: State)
    requires SameClocks(a, b)
    ensures a.now == b.now && a.settings == b.settings && a.lifecycle == b.lifecycle
  {
  }

  lemma SettleClocks(x: Step)
    ensures var y := Settle(x, Accepted);
      && DisplayCount(y.acts) == DisplayCount(x.acts)
      && y.s == x.s.(runs := y.s.runs)
  {
    hide StartEach, NextWake, CandidatesInOrder, Candidates;
    if x.s.lifecycle == Running {
      var cs := CandidatesInOrder(Candidates(x.s));
      CandidatesListed(x.s);
      StartEachCount(x, cs);
      StartEachFrame(x, cs);
      var y := Dispatch(x);
      CountNone(WakeActions(y.s));
      CountAppend(y.acts, WakeActions(y.s));
    }
  }

  lemma {:induction false} StartEachFrame(x: Step, cs: seq<Candidate>)
    requires Listed(x.s.runs.jobs, cs)
    ensures StartEach(x, cs).s == x.s.(runs := StartEach(x, cs).s.runs)
  {
    hide Launch, TicketFor;
    if cs != [] {
      StartEachFrame(x, cs[..|cs| - 1]);
    }
  }

  // ----- whole runs of clock events

  ghost predicate OnlyClock(events: seq<SchedulerEvent>) {
    forall i :: 0 <= i < |events| ==> events[i].TimeAdvanced?
  }

  /** The display deadlines accounted for over a run. */
  function DisplayTotal(s: State, events: seq<SchedulerEvent>): nat {
    if events == [] then 0
    else
      var last := |events| - 1;
      DisplayTotal(s, events[..last]) + DisplayCount(Handle(Run(s, events[..last]), events[last]).acts)
  }

  lemma ClockEvent(s: State, e: SchedulerEvent)
    requires Ticking(s) && e.TimeAdvanced?
    ensures var out := Handle(s, e);
      && Ticking(out.s) && out.s.settings == s.settings && s.now <= out.s.now
      && out.s.paint.nextDisplay.value
           == s.paint.nextDisplay.value + DisplayCount(out.acts) * s.settings.displayInterval
      && (s.paint.nextDisplay.value > s.now ==> out.s.paint.nextDisplay.value > out.s.now)
  {
    hide Handle, Inv;
    if s.now <= e.at {
      TimeAdvancedTicks(s, e.at);
    } else {
      LateEventIsRejected(s, e);
    }
  }

  lemma LateEventIsRejected(s: State, e: SchedulerEvent)
    requires s.lifecycle != Unstarted && e.at < s.now
    ensures Handle(s, e) == Outcome(s, RejectedTimeRegression, [])
  {
  }

  lemma {:induction false} ClockRun(s: State, events: seq<SchedulerEvent>)
    requires Ticking(s) && OnlyClock(events) && s.paint.nextDisplay.value > s.now
    ensures var end := Run(s, events);
      && Ticking(end) && end.settings == s.settings && s.now <= end.now
      && end.paint.nextDisplay.value
           == s.paint.nextDisplay.value + DisplayTotal(s, events) * s.settings.displayInterval
      && end.paint.nextDisplay.value > end.now
      && (DisplayTotal(s, events) > 0 ==> end.paint.nextDisplay.value - s.settings.displayInterval <= end.now)
  {
    hide Handle, Inv, DisplayCount;
    if events != [] {
      var last := |events| - 1;
      ClockRun(s, events[..last]);
      var mid := Run(s, events[..last]);
      ClockEvent(mid, events[last]);
      var out := Handle(mid, events[last]);
      ClockNotAhead(mid, events[last], out);
      var before, here := DisplayTotal(s, events[..last]), DisplayCount(out.acts);
      assert (before + here) * s.settings.displayInterval
          == before * s.settings.displayInterval + here * s.settings.displayInterval;
    }
  }

  lemma ClockNotAhead(s: State, e: SchedulerEvent, out: Outcome)
    requires Ticking(s) && e.TimeAdvanced? && out == Handle(s, e) && out.s.paint.nextDisplay.Some?
    ensures DisplayCount(out.acts) > 0 ==> out.s.paint.nextDisplay.value - s.settings.displayInterval <= out.s.now
  {
    hide Handle, Inv, SkippedIntervals;
    if s.now <= e.at {
      TimeAdvancedTicks(s, e.at);
      var deadline, cadence := s.paint.nextDisplay.value, s.settings.displayInterval;
      if deadline <= e.at {
        SkippedCountsGridPoints(deadline, cadence, e.at);
        LatestDueIsLastGridPoint(deadline, cadence, e.at);
      }
    } else {
      LateEventIsRejected(s, e);
    }
  }

  /** However finely or coarsely the clock is sampled, the deadlines published plus the deadlines
      reported as skipped are exactly the grid points passed between the start and the end of the run. */
  lemma DisplayDeadlinesAreConserved(s: State, events: seq<SchedulerEvent>)
    requires Ticking(s) && OnlyClock(events) && s.paint.nextDisplay.value > s.now
    ensures DisplayTotal(s, events)
         == DueIntervals(s.paint.nextDisplay.value, s.settings.displayInterval, Run(s, events).now)
  {
    hide Handle, Inv, Run, DisplayTotal;
    ClockRun(s, events);
    var end := Run(s, events);
    GridCount(s.paint.nextDisplay.value, s.settings.displayInterval, end.now, DisplayTotal(s, events));
  }

  lemma GridCount(anchor: Time, cadence: Duration, now: Time, k: nat)
    requires cadence > 0 && anchor + k * cadence > now
    requires k > 0 ==> anchor + k * cadence - cadence <= now
    ensures k == DueIntervals(anchor, cadence, now)
  {
    if now < anchor {
      if k > 1 { ProductOrder(1, k, cadence); }
    } else {
      var q := (now - anchor) / cadence;
      QuotientBounds(now - anchor, cadence);
      if k < q + 1 { ProductOrder(k, q + 1, cadence); }
      if k > q + 1 { ProductOrder(q + 1, k, cadence); }
      if now == anchor { assert q == 0; }
    }
  }

  // ----- the next wake-up

  ghost predicate PositiveCadences(jobs: JobTable) {
    forall id :: id in jobs ==> jobs[id].spec.freshness > 0
  }

  ghost predicate Future(deadline: Option<Time>, now: Time) {
    deadline.None? || deadline.value > now
  }

  lemma TimedIsFuture(rt: JobRuntime, ready: bool, now: Time)
    requires rt.spec.freshness > 0
    ensures var r := TimedRuntime(rt, ready, now); Future(r.retryDue, now) && Future(r.nominalDue, now)
    ensures Due(rt.nominalDue, now) ==>
              TimedRuntime(rt, ready, now).nominalDue == Some(AdvancePast(rt.nominalDue.value, rt.spec.freshness, now))
    ensures !Due(rt.nominalDue, now) ==> TimedRuntime(rt, ready, now).nominalDue == rt.nominalDue
  {
    hide AdvancePast, LatestDueAtOrBefore, OnGrid;
    if Due(rt.nominalDue, now) {
      AdvancePastIsNextGridPoint(rt.nominalDue.value, rt.spec.freshness, now);
    }
  }

  ghost predicate JobAhead(rt: JobRuntime, now: Time) {
    Future(rt.retryDue, now) && Future(rt.nominalDue, now)
  }

  ghost predicate JobsAhead(s: State, now: Time) {
    forall id :: id in s.runs.jobs && id in CurrentDemand(s) ==> JobAhead(s.runs.jobs[id], now)
  }

  /** Timers that the scheduler still waits for at `now`. */
  ghost predicate TimersAhead(s: State, now: Time) {
    && JobsAhead(s, now)
    && Future(s.paint.firstPaintDeadline, now)
    && Future(s.view.deactivationDeadline, now) && Future(s.view.activationDeadline, now)
  }

  lemma FirstPaintClocks(x: Step)
    requires PaintOk(x.s.paint) && x.s.settings.displayInterval > 0
    ensures var y := ExpireFirstPaint(x);
      && y.s.view == x.s.view && y.s.now == x.s.now && y.s.settings == x.s.settings && y.s.lifecycle == x.s.lifecycle
      && y.s.handshake == x.s.handshake
      && y.s.runs.jobs.Keys == x.s.runs.jobs.Keys
      && (forall id :: id in x.s.runs.jobs ==> y.s.runs.jobs[id].spec == x.s.runs.jobs[id].spec)
      && PaintOk(y.s.paint) && Future(y.s.paint.firstPaintDeadline, x.s.now)
      && (y.s.paint.firstPaintIssued <==> x.s.paint.firstPaintIssued || Due(x.s.paint.firstPaintDeadline, x.s.now))
      && (!y.s.paint.firstPaintIssued ==> y.s.paint == x.s.paint)
  {
    hide Publish, AdvancePast, DueIntervals;
  }

  /** Before the first paint, the display deadline has passed and nothing will move it yet. */
  predicate WaitsInThePast(s: State, at: Time) {
    !s.paint.firstPaintIssued && !Due(s.paint.firstPaintDeadline, at) && Due(s.paint.nextDisplay, at)
  }

  lemma DisplayTickFrame(x: Step)
    requires PaintOk(x.s.paint) && x.s.settings.displayInterval > 0
    ensures var y := DisplayTick(x);
      && y.s.view == x.s.view && SameClocks(x.s, y.s)
      && y.s.paint.firstPaintDeadline == x.s.paint.firstPaintDeadline
      && (x.s.paint.firstPaintIssued ==> Future(y.s.paint.nextDisplay, x.s.now))
      && (!x.s.paint.firstPaintIssued ==> y.s.paint == x.s.paint)
  {
    hide Publish, SkippedIntervals, AdvancePast, OnGrid;
    if Due(x.s.paint.nextDisplay, x.s.now) {
      AdvancePastIsNextGridPoint(x.s.paint.nextDisplay.value, x.s.settings.displayInterval, x.s.now);
    }
  }

  /** Whatever event processes the time, every timer the scheduler then waits for is later than now, the
      display deadline exactly unless the first paint is still awaited with that deadline behind. */
  lemma ProcessedIsAhead(x: Step)
    requires PaintOk(x.s.paint) && x.s.settings.displayInterval > 0 && PositiveCadences(x.s.runs.jobs)
    ensures var y := ProcessTime(x);
      && TimersAhead(y.s, x.s.now) && y.s.lifecycle == x.s.lifecycle && y.s.handshake == x.s.handshake
      && (Future(y.s.paint.nextDisplay, x.s.now) <==> !WaitsInThePast(x.s, x.s.now))
  {
    hide ExpireDeactivation, ExpireFirstPaint, ExpireActivation, DisplayTick, TimedRuntime, CurrentDemand, HistoryReady, PaintOk, Due;
    var a := ExpireDeactivation(x);
    var b := ExpireFirstPaint(a);
    var c := ExpireActivation(b);
    var d := DisplayTick(c);
    DeactivationClocks(x);
    FirstPaintClocks(a);
    ActivationClocks(b);
    DisplayTickFrame(c);
    var y := ProcessTime(x);
    var demanded := CurrentDemand(d.s);
    forall id | id in y.s.runs.jobs && id in demanded
      ensures JobAhead(y.s.runs.jobs[id], x.s.now)
    {
      var rt := d.s.runs.jobs[id];
      assert rt.spec.freshness > 0 by { assert rt.spec == x.s.runs.jobs[id].spec; }
      TimedIsFuture(rt, HistoryReady(rt.spec, d.s.runs.jobs), x.s.now);
    }
    assert CurrentDemand(y.s) == demanded by { DemandFrame(d.s, y.s); }
    NextDisplayAhead(x, c, d);
  }

  lemma DemandFrame(a: State, b: State)
    requires a.settings == b.settings && a.view == b.view
    ensures CurrentDemand(a) == CurrentDemand(b)
  {
  }

  lemma NextDisplayAhead(x: Step, c: Step, d: Step)
    requires c.s.paint.firstPaintIssued <==> x.s.paint.firstPaintIssued || Due(x.s.paint.firstPaintDeadline, x.s.now)
    requires !c.s.paint.firstPaintIssued ==> c.s.paint == x.s.paint && d.s.paint == c.s.paint
    requires c.s.paint.firstPaintIssued ==> Future(d.s.paint.nextDisplay, x.s.now)
    ensures Future(d.s.paint.nextDisplay, x.s.now) <==> !WaitsInThePast(x.s, x.s.now)
  {
  }

  /** The job's deadline when its timer is looked at: its own, unless the first paint, just timed out with the
      display deadline behind it, puts fast jobs in front of the next one. */
  function TimerAnchor(s: State, id: JobId): Option<Time>
    requires id in s.runs.jobs
  {
    if s.runs.jobs[id].spec.timing == FastDisplay && !s.paint.firstPaintIssued && Due(s.paint.firstPaintDeadline, s.now)
       && Due(s.paint.nextDisplay, s.now)
    then Some(SaturatingSub(AdvancePast(s.paint.nextDisplay.value, s.settings.displayInterval, s.now), FAST_PREFETCH))
    else s.runs.jobs[id].nominalDue
  }

  lemma TimersKeepAnchor(x: Step, id: JobId)
    requires id in x.s.runs.jobs && PaintOk(x.s.paint)
    ensures var y := ExpireTimers(x).s;
      && y.now == x.s.now && id in y.runs.jobs && y.runs.jobs[id].spec == x.s.runs.jobs[id].spec
      && y.runs.jobs[id].nominalDue == TimerAnchor(x.s, id)
  {
    hide ExpireDeactivation, ExpireFirstPaint, ExpireActivation, DisplayTick, PaintOk, SaturatingSub;
    var a := ExpireDeactivation(x);
    var b := ExpireFirstPaint(a);
    DeactivationClocks(x);
    PaintAnchors(a, id);
    ActivationClocks(b);
    LateTickKeepsJobs(ExpireActivation(b));
  }

  lemma PaintAnchors(x: Step, id: JobId)
    requires id in x.s.runs.jobs
    ensures var y := ExpireFirstPaint(x).s;
      && y.now == x.s.now && id in y.runs.jobs && y.runs.jobs[id].spec == x.s.runs.jobs[id].spec
      && y.runs.jobs[id].nominalDue == TimerAnchor(x.s, id)
  {
    hide Publish, AdvancePast, FirstPaintSkips;
  }

  lemma LateTickKeepsJobs(x: Step)
    ensures DisplayTick(x).s.runs == x.s.runs && DisplayTick(x).s.now == x.s.now
  {
    hide Publish, AdvancePast, SkippedIntervals;
  }

  /** Processing an instant moves a demanded job's deadline only when due, and then to the next point of its
      grid, which is the first one later than now. */
  lemma JobTimersStayOnGrid(x: Step, id: JobId)
    requires PaintOk(x.s.paint) && id in x.s.runs.jobs && x.s.runs.jobs[id].spec.freshness > 0
    ensures var y, anchor := ProcessTime(x).s, TimerAnchor(x.s, id);
      && id in y.runs.jobs
      && (anchor.None? ==> y.runs.jobs[id].nominalDue.None?)
      && (anchor.Some? && id in CurrentDemand(y) ==>
            y.runs.jobs[id].nominalDue.Some?
            && NextPoint(anchor.value, x.s.runs.jobs[id].spec.freshness, x.s.now, y.runs.jobs[id].nominalDue.value))
  {
    hide ExpireTimers, TimedRuntime, CurrentDemand, OnGrid, HistoryReady, AdvancePast, TimerAnchor, PaintOk;
    var d := ExpireTimers(x).s;
    TimersKeepAnchor(x, id);
    DemandFrame(d, ProcessTime(x).s);
    var rt := d.runs.jobs[id];
    TimedIsFuture(rt, HistoryReady(rt.spec, d.runs.jobs), x.s.now);
    if rt.nominalDue.Some? {
      if rt.nominalDue.value <= x.s.now {
        AdvancePastIsNextGridPoint(rt.nominalDue.value, rt.spec.freshness, x.s.now);
      } else {
        OwnGridPoint(rt.nominalDue.value, rt.spec.freshness, x.s.now);
      }
    }
  }

  /** `due` is the first point of the grid from `anchor` on that is later than `now`. */
  ghost predicate NextPoint(anchor: Time, cadence: Duration, now: Time, due: Time) {
    due > now && OnGrid(anchor, cadence, due) && forall t: Time :: OnGrid(anchor, cadence, t) && t > now ==> due <= t
  }

  lemma OwnGridPoint(t0: Time, cadence: Duration, now: Time)
    requires t0 > now
    ensures OnGrid(t0, cadence, t0) && forall t: Time :: OnGrid(t0, cadence, t) && t > now ==> t0 <= t
  {
    assert t0 == GridPoint(t0, cadence, 0);
  }

  /** The exception does occur: a startup that waits for a panel job, with a display interval shorter
      than the first-paint timeout, is soon left waiting in the past. */
  lemma StartupCanWaitInThePast(config: SchedulerConfig, inventory: nat, id: JobId, at: Time)
    requires id in config.demand.hidden && config.displayInterval <= at < FIRST_PAINT_TIMEOUT
    requires exists i :: 0 <= i < |config.jobs| && config.jobs[i].id == id
    requires forall i :: 0 <= i < |config.jobs| && config.jobs[i].id == id ==>
               config.jobs[i].startupPanel && config.jobs[i].timing != History
    ensures WaitsInThePast(Handle(INITIAL, Startup(0, config, inventory)).s, at)
  {
    hide IssueFirstPaint, Dispatch, NextWake, SortActions, TableOf;
    var e := Startup(0, config, inventory);
    var s1 := Started(INITIAL, config, inventory);
    TableHas(config.jobs, 0, config.displayInterval, id);
    assert id in Sampling(CurrentDemand(s1), s1.runs.jobs);
    var x := StartUp(Step(INITIAL, []), config, inventory);
    assert id in x.s.paint.firstPaintWaiting;
    SettleClocks(x);
  }

  lemma {:induction false} TableHas(specs: seq<JobSpec>, anchor: Time, display: Time, id: JobId)
    requires exists i :: 0 <= i < |specs| && specs[i].id == id
    requires forall i :: 0 <= i < |specs| && specs[i].id == id ==> specs[i].startupPanel && specs[i].timing != History
    ensures var table := TableOf(specs, anchor, display);
      id in table && table[id].spec.startupPanel && table[id].spec.timing != History
  {
    hide NewRuntime;
    var last := |specs| - 1;
    var i :| 0 <= i < |specs| && specs[i].id == id;
    assert NewRuntime(specs[last], anchor, display).spec == specs[last] by { NewRuntimeSpec(specs[last], anchor, display); }
    if specs[last].id != id {
      assert specs[..last][i].id == id;
      TableHas(specs[..last], anchor, display, id);
    }
  }

  lemma NewRuntimeSpec(spec: JobSpec, anchor: Time, display: Time)
    ensures NewRuntime(spec, anchor, display).spec == spec
  {
  }
}
