/** Whole runs of the scheduler: the invariant holds throughout, what an observer of the actions sees
    agrees with the scheduler's own books, and a run's result counts at most once. */
module SchedulerRuns {
  import opened Wrappers
  import opened SchedulerModel
  import opened SchedulerSpec
  import opened SchedulerSafety
  import opened SchedulerSteps
  import opened SchedulerInvariant
  import opened SchedulerDispatch

  // ----- one event

  /** What one event may do to the runs, in terms of the actions it hands out. */
  ghost predicate RunsFollowActions(s: State, e: SchedulerEvent, out: Outcome) {
    && s.now <= out.s.now && s.runs.nextRunId <= out.s.runs.nextRunId
    && (forall t :: Flying(out.s.runs, t) ==> Flying(s.runs, t) || Starts(out.acts, t))
    && (forall t :: Outstanding(out.s.runs, t) <==>
          (Outstanding(s.runs, t) && Closed(e, out.disposition) != Some(t)) || Starts(out.acts, t))
    && (forall t :: Starts(out.acts, t) ==> Flying(out.s.runs, t) && t.runId >= s.runs.nextRunId)
    && (forall t :: Outstanding(out.s.runs, t) ==> t.runId < out.s.runs.nextRunId)
  }

  lemma SettleFollows(s: State, x: Step, gone: Option<JobTicket>, d: EventDisposition)
    requires ArmOk(s, x, gone)
    ensures var y := Settle(x, d);
      && Inv(y.s) && y.s.now == x.s.now && s.runs.nextRunId <= y.s.runs.nextRunId
      && (forall t :: Flying(y.s.runs, t) ==> Flying(s.runs, t) || Starts(y.acts, t))
      && (forall t :: Outstanding(y.s.runs, t) <==> (Outstanding(s.runs, t) && gone != Some(t)) || Starts(y.acts, t))
      && (forall t :: Starts(y.acts, t) ==> Flying(y.s.runs, t) && t.runId >= s.runs.nextRunId)
  {
    hide Occupancy, Filed, Flying, Cancelling, Dispatch, NextWake, ViewOk, PaintOk, HandshakeOk;
    DispatchStartsTheBest(x);
    LaunchedSelf(x);
    if d == Accepted && x.s.lifecycle == Running {
      var y := Dispatch(x);
      assert forall t :: Starts(y.acts + WakeActions(y.s), t) <==> Starts(y.acts, t);
    }
  }

  lemma InvIsReady(s: State, e: SchedulerEvent)
    requires Inv(s) && EarlyRejection(s, e).None? && s.lifecycle != Unstarted
    ensures Ready(s.(now := e.at)) && !e.Startup? && s.now <= e.at
  {
    hide Occupancy;
  }

  lemma ApplyFollows(s: State, e: SchedulerEvent)
    requires Inv(s) && EarlyRejection(s, e).None?
    ensures var (x, d) := Apply(s.(now := e.at), e); ArmOk(s.(now := e.at), x, Closed(e, d)) && s.now <= e.at
  {
    hide ArmOk, Ready, Apply, Occupancy, TicketsCurrent;
    if s.lifecycle == Unstarted {
      assert e.Startup?;
      StartupArm(e.config, e.inventoryGeneration, e.at);
      assert Apply(s.(now := e.at), e) == (StartUp(Step(INITIAL.(now := e.at), []), e.config, e.inventoryGeneration), Accepted) by {
        ApplyStartup(s.(now := e.at), e);
      }
    } else {
      InvIsReady(s, e);
      ApplyIsArmOk(s.(now := e.at), e);
    }
  }

  lemma ApplyStartup(s: State, e: SchedulerEvent)
    requires e.Startup?
    ensures Apply(s, e) == (StartUp(Step(s, []), e.config, e.inventoryGeneration), Accepted)
  {
    hide StartUp;
  }

  lemma OutstandingBelow(s: State)
    requires Inv(s)
    ensures forall t :: Outstanding(s.runs, t) ==> t.runId < s.runs.nextRunId
  {
    if s.lifecycle == Unstarted {
      assert s == INITIAL;
    } else {
      forall t | Outstanding(s.runs, t)
        ensures t.runId < s.runs.nextRunId
      {
        assert Registered(s.runs, t);
      }
    }
  }

  lemma SortKeepsStarts(acts: seq<SchedulerAction>)
    ensures forall t :: Starts(SortActions(acts), t) <==> Starts(acts, t)
  {
  }

  /** One event keeps the invariant, and its actions account for every run that begins or ends. */
  lemma HandleKeepsInvariant(s: State, e: SchedulerEvent)
    requires Inv(s)
    ensures var out := Handle(s, e); Inv(out.s) && RunsFollowActions(s, e, out)
  {
    hide ArmOk, Inv, Apply, Settle, EarlyRejection, SortActions, Outstanding, Flying;
    OutstandingBelow(s);
    if EarlyRejection(s, e).None? {
      var s' := s.(now := e.at);
      var (x, d) := Apply(s', e);
      ApplyFollows(s, e);
      SettleFollows(s', x, Closed(e, d), d);
      SortKeepsStarts(Settle(x, d).acts);
      OutstandingBelow(Handle(s, e).s);
      assert x.s.now == e.at by { ArmClock(s', x, Closed(e, d)); }
    } else {
      EarlyRejectionCloses(s, e);
    }
  }

  lemma ArmClock(s: State, x: Step, gone: Option<JobTicket>)
    requires ArmOk(s, x, gone)
    ensures x.s.now == s.now
  {
  }

  lemma EarlyRejectionCloses(s: State, e: SchedulerEvent)
    requires EarlyRejection(s, e).Some?
    ensures Handle(s, e) == Outcome(s, EarlyRejection(s, e).value, []) && EarlyRejection(s, e).value != Accepted
    ensures forall t :: !Starts([], t)
  {
  }

  // ----- what never comes back

  lemma StoppedRejects(s: State, e: SchedulerEvent)
    requires s.lifecycle == Stopped
    ensures Handle(s, e).s == s && Handle(s, e).acts == [] && Handle(s, e).disposition != Accepted
  {
    EarlyRejectionCloses(s, e);
  }

  /** Once an accepted shutdown or critical failure has stopped the scheduler, no sequence of events changes
      it, is accepted or has an effect. */
  lemma {:induction false} StoppedForever(s: State, stop: SchedulerEvent, events: seq<SchedulerEvent>)
    requires (stop.Shutdown? || stop.CriticalFailure?) && Handle(s, stop).disposition == Accepted
    ensures var stopped := Handle(s, stop).s;
      && stopped.lifecycle == Stopped && Run(stopped, events) == stopped
      && forall n :: 0 <= n < |events| ==>
           var out := Handle(Run(stopped, events[..n]), events[n]); out.disposition != Accepted && out.acts == []
  {
    hide Handle;
    StopStops(s, stop);
    var stopped := Handle(s, stop).s;
    if events != [] {
      var front, last := events[..|events| - 1], events[|events| - 1];
      StoppedForever(s, stop, front);
      StoppedRejects(stopped, last);
      forall n | 0 <= n < |events|
        ensures var out := Handle(Run(stopped, events[..n]), events[n]); out.disposition != Accepted && out.acts == []
      {
        if n < |front| { assert front[..n] == events[..n] && front[n] == events[n]; }
      }
    }
  }

  lemma StopStops(s: State, e: SchedulerEvent)
    requires (e.Shutdown? || e.CriticalFailure?) && Handle(s, e).disposition == Accepted
    ensures Handle(s, e).s.lifecycle == Stopped
  {
    hide CancelRuns, CancelActions, SortActions;
  }

  /** The invariant holds at every point of every run, whatever the events. */
  lemma {:induction false} RunKeepsInvariant(s: State, events: seq<SchedulerEvent>)
    requires Inv(s)
    ensures Inv(Run(s, events)) && s.now <= Run(s, events).now && s.runs.nextRunId <= Run(s, events).runs.nextRunId
  {
    hide Inv, Handle;
    if events != [] {
      var last := |events| - 1;
      RunKeepsInvariant(s, events[..last]);
      HandleKeepsInvariant(Run(s, events[..last]), events[last]);
    }
  }

  lemma InitialInvariant()
    ensures Inv(INITIAL)
  {
  }

  // ----- the observer's ledger

  function StartedBy(acts: seq<SchedulerAction>): (r: set<JobTicket>)
    ensures forall t :: t in r <==> Starts(acts, t)
  {
    set a | a in acts && a.StartJob? :: a.ticket
  }

  /** The runs an observer of events and actions believes outstanding: every start action opens one,
      every accepted result or acknowledgement closes the one it names. */
  function Ledger(events: seq<SchedulerEvent>): set<JobTicket> {
    if events == [] then {}
    else
      var last := |events| - 1;
      var out := Handle(Run(INITIAL, events[..last]), events[last]);
      var gone := Closed(events[last], out.disposition);
      (Ledger(events[..last]) - (if gone.Some? then {gone.value} else {})) + StartedBy(out.acts)
  }

  /** The observer's ledger is exactly what the scheduler holds outstanding. */
  lemma {:induction false} LedgerIsOutstanding(events: seq<SchedulerEvent>, t: JobTicket)
    ensures t in Ledger(events) <==> Outstanding(Run(INITIAL, events).runs, t)
  {
    hide Inv, Handle, Outstanding, Flying;
    if events == [] {
      assert !Outstanding(INITIAL.runs, t) by { NothingOutstanding(t); }
    } else {
      var last := |events| - 1;
      LedgerIsOutstanding(events[..last], t);
      InitialInvariant();
      RunKeepsInvariant(INITIAL, events[..last]);
      HandleKeepsInvariant(Run(INITIAL, events[..last]), events[last]);
    }
  }

  lemma NothingOutstanding(t: JobTicket)
    ensures !Outstanding(INITIAL.runs, t)
  {
  }

  /** Over every run, no two outstanding runs share an owner or a run number, the owner table is
      exactly the ledger, and a suspended or stopped scheduler has nothing in flight. */
  lemma OneRunPerOwner(events: seq<SchedulerEvent>, t: JobTicket, u: JobTicket)
    requires t in Ledger(events) && u in Ledger(events)
    requires t.job.owner == u.job.owner || t.runId == u.runId
    ensures t == u
    ensures var s := Run(INITIAL, events);
      && t.job.owner in s.runs.inFlightOwners && s.runs.inFlightOwners[t.job.owner] == t.runId
      && (s.lifecycle == Suspended || s.lifecycle == Stopped ==> Cancelling(s.runs, t))
  {
    hide Ledger, Flying, Cancelling, Filed;
    LedgerIsOutstanding(events, t);
    LedgerIsOutstanding(events, u);
    InitialInvariant();
    RunKeepsInvariant(INITIAL, events);
    if Run(INITIAL, events).lifecycle == Unstarted {
      NothingOutstanding(t);
    } else {
      assert Registered(Run(INITIAL, events).runs, t) && Registered(Run(INITIAL, events).runs, u);
    }
  }

  /** Once started, a run keeps its owner until an accepted event names that very run. */
  lemma {:induction false} OwnerHeldUntilClosed(events: seq<SchedulerEvent>, n: nat, t: JobTicket)
    requires n <= |events| && t in Ledger(events[..n])
    requires forall k :: n <= k < |events| ==>
               Closed(events[k], Handle(Run(INITIAL, events[..k]), events[k]).disposition) != Some(t)
    ensures t in Ledger(events)
    ensures var s := Run(INITIAL, events);
      t.job.owner in s.runs.inFlightOwners && s.runs.inFlightOwners[t.job.owner] == t.runId
    decreases |events| - n
  {
    hide Handle, Cancelling;
    if n == |events| {
      assert events[..n] == events;
      OneRunPerOwner(events, t, t);
    } else {
      assert events[..n + 1][..n] == events[..n];
      OwnerHeldUntilClosed(events, n + 1, t);
    }
  }

  // ----- a run's result counts at most once

  /** The event records the result of `t` in its job. */
  ghost predicate Applies(s: State, e: SchedulerEvent, t: JobTicket) {
    e.JobFinished? && e.ticket == t && !Cancelling(s.runs, t) && Handle(s, e).disposition == Accepted
  }

  /** `t` has been started and is no longer in flight. */
  ghost predicate Retired(s: State, t: JobTicket) {
    t.runId < s.runs.nextRunId && !Flying(s.runs, t)
  }

  lemma AppliedWasFlying(s: State, e: SchedulerEvent, t: JobTicket)
    requires Inv(s) && Applies(s, e, t)
    ensures Flying(s.runs, t) && Retired(Handle(s, e).s, t)
  {
    hide Inv, Handle, Cancelling;
    assert EarlyRejection(s, e).None? by { AcceptedIsNotEarly(s, e); }
    assert Flying(s.runs, t) by { CurrentIsFlying(s, e, t); }
    HandleKeepsInvariant(s, e);
    OutstandingBelow(s);
    var out := Handle(s, e);
    assert Outstanding(s.runs, t);
    assert !Outstanding(out.s.runs, t);
  }

  lemma AcceptedIsNotEarly(s: State, e: SchedulerEvent)
    requires Handle(s, e).disposition == Accepted
    ensures EarlyRejection(s, e).None?
  {
    if EarlyRejection(s, e).Some? { EarlyRejectionCloses(s, e); }
  }

  lemma CurrentIsFlying(s: State, e: SchedulerEvent, t: JobTicket)
    requires EarlyRejection(s, e).None? && e.JobFinished? && e.ticket == t && !Cancelling(s.runs, t)
    ensures Flying(s.runs, t)
  {
  }

  lemma RetiredStays(s: State, e: SchedulerEvent, t: JobTicket)
    requires Inv(s) && Retired(s, t)
    ensures Retired(Handle(s, e).s, t) && !Applies(s, e, t)
  {
    hide Inv, Handle, Cancelling, Flying;
    HandleKeepsInvariant(s, e);
    if Applies(s, e, t) { AppliedWasFlying(s, e, t); }
  }

  lemma {:induction false} RetiredForever(s: State, events: seq<SchedulerEvent>, t: JobTicket)
    requires Inv(s) && Retired(s, t)
    ensures Retired(Run(s, events), t)
  {
    hide Inv, Handle, Retired;
    if events != [] {
      var last := |events| - 1;
      RetiredForever(s, events[..last], t);
      RunKeepsInvariant(s, events[..last]);
      RetiredStays(Run(s, events[..last]), events[last], t);
    }
  }

  lemma {:induction false} RunSplits(s: State, a: seq<SchedulerEvent>, b: seq<SchedulerEvent>)
    ensures Run(s, a + b) == Run(Run(s, a), b)
  {
    hide Handle;
    if b == [] {
      assert a + b == a;
    } else {
      var last := |b| - 1;
      assert (a + b)[..|a + b| - 1] == a + b[..last];
      RunSplits(s, a, b[..last]);
    }
  }

  lemma RetiredLater(events: seq<SchedulerEvent>, i: nat, j: nat, t: JobTicket)
    requires i < j < |events| && Retired(Run(INITIAL, events[..i + 1]), t)
    ensures Retired(Run(INITIAL, events[..j]), t)
  {
    hide Inv, Handle, Retired;
    InitialInvariant();
    RunKeepsInvariant(INITIAL, events[..i + 1]);
    assert events[..j] == events[..i + 1] + events[i + 1..j];
    RunSplits(INITIAL, events[..i + 1], events[i + 1..j]);
    RetiredForever(Run(INITIAL, events[..i + 1]), events[i + 1..j], t);
  }

  /** Over every run, a ticket's result is recorded at most once. */
  lemma ResultCountsOnce(events: seq<SchedulerEvent>, i: nat, j: nat, t: JobTicket)
    requires i < j < |events|
    requires Applies(Run(INITIAL, events[..i]), events[i], t)
    ensures !Applies(Run(INITIAL, events[..j]), events[j], t)
  {
    hide Inv, Handle, Retired, Applies;
    InitialInvariant();
    RunKeepsInvariant(INITIAL, events[..i]);
    AppliedWasFlying(Run(INITIAL, events[..i]), events[i], t);
    assert events[..i + 1][..i] == events[..i];
    RetiredLater(events, i, j, t);
    RunKeepsInvariant(INITIAL, events[..j]);
    RetiredStays(Run(INITIAL, events[..j]), events[j], t);
  }

  /** Events that cancel whatever is in flight. */
  predicate CancelsAll(e: SchedulerEvent) {
    e.Suspend? || e.Shutdown? || e.CriticalFailure? || e.ConfigChanged? || e.InventoryChanged?
  }

  lemma CancelsAllGrounds(s: State, e: SchedulerEvent)
    requires Ready(s) && CancelsAll(e)
    ensures Grounded(Apply(s, e).0.s.runs)
  {
    hide Occupancy, Reconfigure, ChangeInventory, CancelRuns, Filed, Moved, Calm, TicketsCurrent, Sound, HandshakeOk;
    var x := Step(s, []);
    match e
    case ConfigChanged(_, config) => ReconfigureIsCalm(x, config);
    case InventoryChanged(_, update) => ChangeInventoryIsCalm(x, update);
    case Suspend(_) => CancelIsCalm(x, s.runs.jobs.Keys, ForSuspend);
    case Shutdown(_) => CancelIsCalm(x, s.runs.jobs.Keys, ForShutdown);
    case CriticalFailure(_, _) => CancelIsCalm(x, s.runs.jobs.Keys, ForCriticalFailure);
  }

  lemma CancelledRunsRetire(s: State, e: SchedulerEvent, t: JobTicket)
    requires Inv(s) && CancelsAll(e) && Handle(s, e).disposition == Accepted && t.runId < s.runs.nextRunId
    ensures Retired(Handle(s, e).s, t)
  {
    hide Inv, Apply, Settle, EarlyRejection, SortActions, ArmOk, Ready, Closed, Occupancy;
    AcceptedIsNotEarly(s, e);
    assert s.lifecycle != Unstarted by { EarlyUnstarted(s, e); }
    InvIsReady(s, e);
    var s' := s.(now := e.at);
    CancelsAllGrounds(s', e);
    var (x, d) := Apply(s', e);
    ApplyFollows(s, e);
    assert forall u :: Flying(x.s.runs, u) ==> false;
    SettleStartsOnlyFresh(s', x, Closed(e, d), d, t);
  }

  lemma EarlyUnstarted(s: State, e: SchedulerEvent)
    requires EarlyRejection(s, e).None? && !e.Startup?
    ensures s.lifecycle != Unstarted
  {
  }

  lemma SettleStartsOnlyFresh(s: State, x: Step, gone: Option<JobTicket>, d: EventDisposition, t: JobTicket)
    requires ArmOk(s, x, gone) && Grounded(x.s.runs) && t.runId < s.runs.nextRunId
    ensures !Flying(Settle(x, d).s.runs, t) && s.runs.nextRunId <= Settle(x, d).s.runs.nextRunId
  {
    hide Occupancy, Dispatch, Filed, Sound, TicketsCurrent, HandshakeOk, NextWake;
    DispatchStartsTheBest(x);
  }

  /** Over every run, no result is recorded for a run started before a suspend, a shutdown, a critical
      failure, a configuration change or an inventory change that came in between. */
  lemma NoResultAfterCancellation(events: seq<SchedulerEvent>, i: nat, j: nat, t: JobTicket)
    requires i < j < |events| && CancelsAll(events[i])
    requires Handle(Run(INITIAL, events[..i]), events[i]).disposition == Accepted
    requires t.runId < Run(INITIAL, events[..i]).runs.nextRunId
    ensures !Applies(Run(INITIAL, events[..j]), events[j], t)
  {
    hide Inv, Handle, Retired, Applies, CancelsAll;
    InitialInvariant();
    RunKeepsInvariant(INITIAL, events[..i]);
    CancelledRunsRetire(Run(INITIAL, events[..i]), events[i], t);
    assert events[..i + 1][..i] == events[..i];
    RetiredLater(events, i, j, t);
    RunKeepsInvariant(INITIAL, events[..j]);
    RetiredStays(Run(INITIAL, events[..j]), events[j], t);
  }
}
