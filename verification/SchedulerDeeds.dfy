/** What a transition hands out besides publications, starts and the wake-up: cancellations, invalidations, backoffs,
    evaluations, baselines, rescans and the end. For every event these are exactly known beforehand
    (src/scheduler/machine.rs and its demand submodule). */
module SchedulerDeeds {
  import opened Wrappers
  import opened SchedulerPolicy
  import opened SchedulerModel
  import opened SchedulerSpec
  import opened SchedulerSafety
  import opened SchedulerSteps
  import opened SchedulerInvariant
  import opened SchedulerDispatch
  import opened SchedulerRuns
  import opened SchedulerHistory
  import opened SchedulerSources
  import opened SchedulerTiming
  import opened SchedulerClock

  predicate IsDeed(a: SchedulerAction) {
    !(a.PublishDisplay? || a.StartJob? || a.ScheduleDeadline?)
  }

  /** Runs in flight are filed under their own jobs. */
  ghost predicate Home(jobs: JobTable) {
    forall id :: id in jobs && jobs[id].inFlight.Some? ==> jobs[id].inFlight.value.job == id
  }

  /** The run was in flight and is no longer, and has not been closed. */
  ghost predicate Ended(a: Runs, b: Runs, gone: Option<JobTicket>, t: JobTicket) {
    Flying(a, t) && !Flying(b, t) && gone != Some(t)
  }

  /** From `x` to `y` the actions grow by `others` and by the cancellations, for the given reason, of the runs that end
      without being closed. */
  ghost predicate Does(x: Step, y: Step, reason: CancelReason, others: iset<SchedulerAction>, gone: Option<JobTicket>) {
    && Home(y.s.runs.jobs)
    && (forall t :: Flying(y.s.runs, t) ==> Flying(x.s.runs, t))
    && (forall a :: IsDeed(a) ==>
          (a in y.acts <==>
             a in x.acts || a in others
             || (a.CancelJob? && a.reason == reason && Ended(x.s.runs, y.s.runs, gone, a.ticket))))
  }

  ghost predicate SameInFlight(a: JobTable, b: JobTable) {
    a.Keys == b.Keys && forall id :: id in a ==> a[id].inFlight == b[id].inFlight
  }

  ghost predicate SameDeeds(a: seq<SchedulerAction>, b: seq<SchedulerAction>) {
    forall d :: IsDeed(d) ==> (d in a <==> d in b)
  }

  /** No run ends and nothing of the kind is handed out. */
  ghost predicate Idles(x: Step, y: Step) {
    SameInFlight(x.s.runs.jobs, y.s.runs.jobs) && SameDeeds(x.acts, y.acts)
  }

  lemma IdlesDoes(x: Step, y: Step, reason: CancelReason)
    requires Home(x.s.runs.jobs) && Idles(x, y)
    ensures Does(x, y, reason, iset{}, None)
  {
  }

  /** Quiet steps before and after change nothing about what is done. */
  lemma DoesThenIdles(x: Step, y: Step, z: Step, reason: CancelReason, others: iset<SchedulerAction>, gone: Option<JobTicket>)
    requires Does(x, y, reason, others, gone) && Idles(y, z)
    ensures Does(x, z, reason, others, gone)
  {
    hide IsDeed;
    SameFlying(y.s.runs, z.s.runs);
    HomeStays(y.s.runs.jobs, z.s.runs.jobs);
    hide Flying, Home;
  }

  lemma IdlesThenDoes(x: Step, y: Step, z: Step, reason: CancelReason, others: iset<SchedulerAction>, gone: Option<JobTicket>)
    requires Idles(x, y) && Does(y, z, reason, others, gone)
    ensures Does(x, z, reason, others, gone)
  {
    hide IsDeed;
    SameFlying(x.s.runs, y.s.runs);
    hide Flying, Home;
  }

  lemma SameFlying(a: Runs, b: Runs)
    requires SameInFlight(a.jobs, b.jobs)
    ensures forall t :: Flying(a, t) <==> Flying(b, t)
  {
  }

  lemma HomeStays(a: JobTable, b: JobTable)
    requires SameInFlight(a, b)
    ensures Home(a) <==> Home(b)
  {
  }

  lemma IdlesChain(x: Step, y: Step, z: Step)
    requires Idles(x, y) && Idles(y, z)
    ensures Idles(x, z)
  {
  }

  // ----- quiet steps

  lemma FrameIdles(x: Step, y: Step)
    requires SameInFlight(x.s.runs.jobs, y.s.runs.jobs) && y.acts == x.acts
    ensures Idles(x, y)
  {
  }

  lemma PublishIdles(x: Step, why: PublishReason, deadline: Option<Time>, skipped: nat, panel: bool, wantTooltip: bool)
    ensures Idles(x, IssuePublish(x, why, deadline, skipped, panel, wantTooltip))
  {
    hide HasTooltipPublication;
    var tooltip := wantTooltip && x.s.view.presented;
    var i, y := FirstRefresh(x.acts), IssuePublish(x, why, deadline, skipped, panel, wantTooltip);
    if panel && tooltip && i < |x.acts| && !(why == TooltipRefresh && HasTooltipPublication(x.acts)) {
      var merged := x.acts[i].(why := why, displayDeadline := deadline, skipped := skipped, panel := true, tooltip := true);
      OthersStay(x.acts, i, merged);
    }
  }

  lemma OthersStay(acts: seq<SchedulerAction>, i: nat, merged: SchedulerAction)
    requires i < |acts| && acts[i].PublishDisplay? && merged.PublishDisplay?
    ensures SameDeeds(acts, acts[i := merged])
  {
    var all := acts[i := merged];
    forall d | IsDeed(d)
      ensures d in acts <==> d in all
    {
      if d in acts {
        var k :| 0 <= k < |acts| && acts[k] == d;
        assert all[k] == d;
      }
      if d in all {
        var k :| 0 <= k < |all| && all[k] == d;
        assert acts[k] == d;
      }
    }
  }

  lemma FirstPaintIdles(x: Step, why: PublishReason)
    ensures Idles(x, IssueFirstPaint(x, why))
  {
    hide IssuePublish, FirstPaintSkips, Idles;
    var p := Step(Painted(x.s), x.acts);
    PaintedFlights(x.s);
    FrameIdles(x, p);
    FrameIdles(x, x);
    PublishIdles(p, why, None, FirstPaintSkips(x.s), true, x.s.view.effectivePresented);
    IdlesChain(x, p, IssuePublish(p, why, None, FirstPaintSkips(x.s), true, x.s.view.effectivePresented));
  }

  lemma PaintedFlights(s: State)
    ensures SameInFlight(s.runs.jobs, Painted(s).runs.jobs) && SameInFlight(s.runs.jobs, s.runs.jobs)
  {
    hide AdvancePast;
  }

  lemma MarkFlights(jobs: JobTable, which: set<JobId>, demanded: set<JobId>, now: Time, due: Time)
    ensures SameInFlight(jobs, jobs) && SameInFlight(jobs, Marked(jobs, which, now)) && SameInFlight(jobs, AllRested(jobs, which))
    ensures SameInFlight(jobs, DemandRefreshed(jobs, demanded, now)) && SameInFlight(jobs, AllRetried(jobs, which, now))
    ensures SameInFlight(jobs, Reanchored(jobs, due))
  {
  }

  lemma TimedFlights(s: State)
    ensures SameInFlight(s.runs.jobs, TimeJobs(s).runs.jobs)
  {
    hide CurrentDemand;
    TimedKeeps(s.runs.jobs, CurrentDemand(s), s.now);
  }

  // ----- cancelling

  lemma CancelDoes(x: Step, which: set<JobId>, reason: CancelReason)
    requires Home(x.s.runs.jobs)
    ensures Does(x, CancelWhere(x, which, reason), reason, iset{}, None)
    ensures which == x.s.runs.jobs.Keys ==> forall t :: !Flying(CancelWhere(x, which, reason).s.runs, t)
  {
    hide AddTickets;
    var y, tickets := CancelWhere(x, which, reason), Moved(x.s.runs.jobs, which);
    MovedAre(x.s.runs, which);
    LandedAre(x.s.runs, which);
    forall a | IsDeed(a)
      ensures a in y.acts <==>
                a in x.acts || (a.CancelJob? && a.reason == reason && Ended(x.s.runs, y.s.runs, None, a.ticket))
    {
      assert a in CancelActions(tickets, reason) <==> a.CancelJob? && a.reason == reason && a.ticket in tickets;
    }
  }

  lemma MovedAre(r: Runs, which: set<JobId>)
    requires Home(r.jobs)
    ensures forall t :: t in Moved(r.jobs, which) <==> Flying(r, t) && t.job in which
  {
    var ids := InOrder(which * r.jobs.Keys);
    forall t
      ensures t in Moved(r.jobs, which) <==> Flying(r, t) && t.job in which
    {
      if t in Moved(r.jobs, which) {
        var id :| id in ids && r.jobs[id].inFlight == Some(t);
        assert id in which * r.jobs.Keys;
      }
      if Flying(r, t) && t.job in which { assert t.job in ids; }
    }
  }

  lemma LandedAre(r: Runs, which: set<JobId>)
    requires Home(r.jobs)
    ensures var after := CancelRuns(r, which);
      Home(after.jobs) && forall t :: Flying(after, t) <==> Flying(r, t) && t.job !in which
  {
    hide AddTickets, Moved;
  }

  lemma CancelEndedDoes(x: Step, before: set<JobId>, after: set<JobId>)
    requires Home(x.s.runs.jobs)
    ensures Does(x, CancelDemandEnded(x, before, after), DemandEnded, iset{}, None)
  {
    hide CancelWhere, AllRested, PageWork, Does, Idles, Home;
    var rested := Step(WithJobs(x.s, AllRested(x.s.runs.jobs, PageWork(before - after))), x.acts);
    MarkFlights(x.s.runs.jobs, PageWork(before - after), {}, 0, 0);
    FrameIdles(x, rested);
    HomeStays(x.s.runs.jobs, rested.s.runs.jobs);
    CancelDoes(rested, PageWork(before - after), DemandEnded);
    IdlesThenDoes(x, rested, CancelDemandEnded(x, before, after), DemandEnded, iset{}, None);
  }

  lemma RefreshDemandDoes(x: Step, cancelPageJobs: bool)
    requires Home(x.s.runs.jobs)
    ensures Does(x, RefreshDemand(x, cancelPageJobs), DemandEnded, iset{}, None)
    ensures !cancelPageJobs ==> Idles(x, RefreshDemand(x, cancelPageJobs))
  {
    hide CancelWhere, DemandRefreshed, PageWork, Does, Idles, Home, CurrentDemand;
    var demanded := CurrentDemand(x.s);
    var refreshed := Step(WithJobs(x.s, DemandRefreshed(x.s.runs.jobs, demanded, x.s.now)), x.acts);
    MarkFlights(x.s.runs.jobs, {}, demanded, x.s.now, 0);
    FrameIdles(x, refreshed);
    HomeStays(x.s.runs.jobs, refreshed.s.runs.jobs);
    IdlesDoes(x, refreshed, DemandEnded);
    var ended := PageWork(x.s.runs.jobs.Keys - demanded);
    CancelDoes(refreshed, ended, DemandEnded);
    IdlesThenDoes(x, refreshed, CancelWhere(refreshed, ended, DemandEnded), DemandEnded, iset{}, None);
  }

  lemma ActivateIdles(x: Step, before: set<JobId>, after: set<JobId>, track: bool)
    ensures Idles(x, Step(ActivateJobs(x.s, before, after, track), x.acts))
  {
    hide Marked, Sampling;
    MarkFlights(x.s.runs.jobs, Sampling(after - before, x.s.runs.jobs), {}, x.s.now, 0);
  }

  // ----- a new table

  /** Some listed job, known before, has changed its source; what was read from the old one is void. */
  ghost predicate Voids(jobs: JobTable, specs: seq<JobSpec>, n: nat, a: SchedulerAction)
    requires n <= |specs| && a.InvalidateJob?
  {
    exists i :: 0 <= i < n && specs[i].id == a.job && a.job in jobs && SourceChanged(jobs[a.job].spec, specs[i])
                && a.cleared == ClearedMetrics(jobs[a.job].spec, specs[i])
  }

  /** The invalidations of a new job list: changed sources with the metrics they change, and dropped jobs. */
  ghost predicate Invalidates(jobs: JobTable, specs: seq<JobSpec>, reason: CancelReason, a: SchedulerAction) {
    a.InvalidateJob? && a.reason == reason
    && (Voids(jobs, specs, |specs|, a) || (a.job in jobs && a.job !in IdsOf(specs) && a.cleared.None?))
  }

  ghost function Invalidations(jobs: JobTable, specs: seq<JobSpec>, reason: CancelReason): iset<SchedulerAction> {
    iset a | Invalidates(jobs, specs, reason, a)
  }

  lemma {:induction false} ReplaceEachVoids(jobs: JobTable, acts: seq<SchedulerAction>, specs: seq<JobSpec>,
                                            now: Time, display: Time, reason: CancelReason, a: SchedulerAction)
    requires DistinctIds(specs)
    ensures var q := ReplaceEach(Replacement(jobs, map[], acts), specs, now, display, reason);
      a in q.acts <==> a in acts || (a.InvalidateJob? && a.reason == reason && Voids(jobs, specs, |specs|, a))
  {
    hide NewRuntime, Carried, ClearedMetrics, SourceChanged, IdsOf;
    if specs != [] {
      var prefix, last := specs[..|specs| - 1], specs[|specs| - 1];
      ReplaceEachVoids(jobs, acts, prefix, now, display, reason, a);
      ReplaceEachTable(jobs, acts, prefix, now, display, reason);
      assert last.id !in IdsOf(prefix) by { LastIsNew(specs); }
      if a.InvalidateJob? { VoidsMore(jobs, specs, a); }
    }
  }

  lemma VoidsMore(jobs: JobTable, specs: seq<JobSpec>, a: SchedulerAction)
    requires specs != [] && a.InvalidateJob?
    ensures var prefix, last := specs[..|specs| - 1], specs[|specs| - 1];
      Voids(jobs, specs, |specs|, a) <==>
        Voids(jobs, prefix, |prefix|, a)
        || (last.id == a.job && a.job in jobs && SourceChanged(jobs[a.job].spec, last)
            && a.cleared == ClearedMetrics(jobs[a.job].spec, last))
  {
    hide ClearedMetrics, SourceChanged;
    var prefix := specs[..|specs| - 1];
    if Voids(jobs, prefix, |prefix|, a) {
      var i :| 0 <= i < |prefix| && prefix[i].id == a.job && a.job in jobs && SourceChanged(jobs[a.job].spec, prefix[i])
               && a.cleared == ClearedMetrics(jobs[a.job].spec, prefix[i]);
      assert specs[i] == prefix[i];
    }
    if Voids(jobs, specs, |specs|, a) {
      var i :| 0 <= i < |specs| && specs[i].id == a.job && a.job in jobs && SourceChanged(jobs[a.job].spec, specs[i])
               && a.cleared == ClearedMetrics(jobs[a.job].spec, specs[i]);
      if i < |prefix| { assert prefix[i] == specs[i]; }
    }
  }

  lemma LandedSpecs(jobs: JobTable, specs: seq<JobSpec>, a: SchedulerAction)
    requires a.InvalidateJob?
    ensures var landed := Landed(jobs, jobs.Keys);
      && landed.Keys == jobs.Keys
      && (Voids(landed, specs, |specs|, a) <==> Voids(jobs, specs, |specs|, a))
  {
    hide ClearedMetrics, SourceChanged;
    var landed := Landed(jobs, jobs.Keys);
    assert forall id :: id in jobs ==> landed[id].spec == jobs[id].spec;
  }

  lemma InvalidateAllAre(ids: seq<JobId>, reason: CancelReason, a: SchedulerAction)
    ensures a in InvalidateAll(ids, reason) <==> a.InvalidateJob? && a.reason == reason && a.cleared.None? && a.job in ids
  {
    var r := InvalidateAll(ids, reason);
    if a.InvalidateJob? && a.reason == reason && a.cleared.None? && a.job in ids {
      var i :| 0 <= i < |ids| && ids[i] == a.job;
      assert r[i] == a;
    }
  }

  lemma TableHasNoRuns(table: JobTable, jobs: JobTable, specs: seq<JobSpec>, now: Time, display: Time)
    requires TableIs(table, jobs, specs, now, display) && forall id :: id in jobs ==> jobs[id].inFlight.None?
    ensures forall id :: id in table ==> table[id].inFlight.None?
  {
    hide SourceChanged;
    forall id | id in table
      ensures table[id].inFlight.None?
    {
      var i :| 0 <= i < |specs| && specs[i].id == id;
    }
  }

  /** What a reload does: it cancels every run in flight and invalidates what the new list drops or changes. */
  lemma ReplaceJobsDoes(x: Step, specs: seq<JobSpec>, reason: CancelReason)
    requires Home(x.s.runs.jobs) && DistinctIds(specs)
    ensures Does(x, ReplaceJobs(x, specs, reason), reason, Invalidations(x.s.runs.jobs, specs, reason), None)
  {
    hide CancelActions, Moved, AddTickets, ReplaceEach, InvalidateAll, IdsOf, TableIs, Voids, ClearedMetrics, SourceChanged;
    var x1 := CancelAll(x, reason);
    CancelDoes(x, x.s.runs.jobs.Keys, reason);
    var landed := x1.s.runs.jobs;
    var r := ReplaceEach(Replacement(landed, map[], x1.acts), specs, x1.s.now, DisplayAnchor(x1.s), reason);
    ReplaceEachTable(landed, x1.acts, specs, x1.s.now, DisplayAnchor(x1.s), reason);
    TableHasNoRuns(r.table, landed, specs, x1.s.now, DisplayAnchor(x1.s));
    var y := ReplaceJobs(x, specs, reason);
    assert forall t :: !Flying(y.s.runs, t) && Home(y.s.runs.jobs) by { ResettledNoRuns(WithJobs(x1.s, r.table)); }
    forall a | IsDeed(a)
      ensures a in y.acts <==> a in x1.acts || Invalidates(x.s.runs.jobs, specs, reason, a)
    {
      ReplaceEachVoids(landed, x1.acts, specs, x1.s.now, DisplayAnchor(x1.s), reason, a);
      InvalidateAllAre(InOrder(r.previous.Keys), reason, a);
      if a.InvalidateJob? { LandedSpecs(x.s.runs.jobs, specs, a); }
    }
    ReplacedDoes(x, x1, y, specs, reason);
  }

  lemma ReplacedDoes(x: Step, x1: Step, y: Step, specs: seq<JobSpec>, reason: CancelReason)
    requires Does(x, x1, reason, iset{}, None) && forall t :: !Flying(x1.s.runs, t)
    requires Home(y.s.runs.jobs) && forall t :: !Flying(y.s.runs, t)
    requires forall a :: IsDeed(a) ==> (a in y.acts <==> a in x1.acts || Invalidates(x.s.runs.jobs, specs, reason, a))
    ensures Does(x, y, reason, Invalidations(x.s.runs.jobs, specs, reason), None)
  {
    hide Invalidates, Flying, Home;
  }

  lemma ResettledNoRuns(s: State)
    requires forall id :: id in s.runs.jobs ==> s.runs.jobs[id].inFlight.None?
    ensures Home(Resettled(s).runs.jobs) && forall t :: !Flying(Resettled(s).runs, t)
  {
    hide FirstPaintBlockers, CurrentDemand;
  }

  // ----- results

  function ReportedFailures(rt: JobRuntime): nat {
    FailedOnce(rt.failureCount)
  }

  /** What the result of `t` calls for: a failure a backoff, fresh values an evaluation once the panel has been heard
      of, an absence the end of all that was drawn from the job. A history calls for nothing of its own. */
  ghost predicate CalledFor(s: State, t: JobTicket, completion: CompletionKind, ready: bool, now: Time, a: SchedulerAction)
    requires t.job in s.runs.jobs
  {
    var rt := s.runs.jobs[t.job];
    var failures := ReportedFailures(rt);
    || (completion == Failed && rt.spec.timing != History
        && a == ApplyBackoff(t.job, failures, now + RetryDelay(failures, rt.spec.freshness)))
    || (ready && s.feed.notificationsArmed && rt.spec.timing != History && a == EvaluateNotifications(t))
    || (completion == ConfirmedAbsent && a.InvalidateJob? && a.reason == SourceReplaced && a.cleared.None?
        && a.job in s.runs.jobs && s.runs.jobs[a.job].spec.historySource == Some(t.job))
  }

  ghost function Calls(s: State, t: JobTicket, completion: CompletionKind, ready: bool, now: Time): iset<SchedulerAction>
    requires t.job in s.runs.jobs
  {
    iset a | CalledFor(s, t, completion, ready, now, a)
  }

  lemma CompletionCalls(s: State, t: JobTicket, completion: CompletionKind, ready: bool, a: SchedulerAction)
    requires t.job in s.runs.jobs
    ensures a in CompletionActions(s, t, completion, ready) <==> CalledFor(s, t, completion, ready, s.now, a)
  {
    hide RetryDelay, FailedOnce, InvalidateAll;
    var rt := Completed(s.runs.jobs[t.job], completion, s.now);
    assert completion == Failed ==> rt.failureCount == FailedOnce(s.runs.jobs[t.job].failureCount);
    InvalidateAllAre(InOrder(Dependents(s.runs.jobs, t.job)), SourceReplaced, a);
  }

  lemma LandDoes(x: Step, t: JobTicket, completion: CompletionKind, ready: bool, reason: CancelReason)
    requires Home(x.s.runs.jobs) && Finishes(x.s, t)
    ensures Does(x, Step(LandRun(x.s, t, completion), x.acts + CompletionActions(x.s, t, completion, ready)), reason,
                 Calls(x.s, t, completion, ready, x.s.now), Some(t))
  {
    hide CompletionActions, CalledFor;
    var y := Step(LandRun(x.s, t, completion), x.acts + CompletionActions(x.s, t, completion, ready));
    CompletionLandsHome(x.s.runs.jobs, t, completion, x.s.now);
    forall a | IsDeed(a)
      ensures a in y.acts <==> a in x.acts || a in Calls(x.s, t, completion, ready, x.s.now)
    {
      CompletionCalls(x.s, t, completion, ready, a);
    }
  }

  lemma CompletionLandsHome(jobs: JobTable, t: JobTicket, completion: CompletionKind, now: Time)
    requires Home(jobs) && t.job in jobs
    ensures var after := CompletedJobs(jobs, t, completion, now);
      && after.Keys == jobs.Keys && Home(after)
      && (forall id :: id in jobs ==> after[id].inFlight == if id == t.job then None else jobs[id].inFlight)
  {
    hide RetryDelay, FailedOnce;
  }

  lemma FinishDoes(x: Step, t: JobTicket, completion: CompletionKind, ready: bool, reason: CancelReason)
    requires Home(x.s.runs.jobs) && Finishes(x.s, t)
    ensures Does(x, FinishJob(x, t, completion, ready), reason, Calls(x.s, t, completion, ready, x.s.now), Some(t))
  {
    hide Does, LandRun, CompletionActions, IssueFirstPaint, IssuePublish, Home, Idles, Calls;
    var y := Step(LandRun(x.s, t, completion), x.acts + CompletionActions(x.s, t, completion, ready));
    LandDoes(x, t, completion, ready, reason);
    SelfIdles(y);
    FirstPaintIdles(y, FirstPaintReady);
    var z := PaintWhenReady(y);
    var w := Step(z.s.(view := z.s.view.(activationDeadline := None)), z.acts);
    SelfIdles(z);
    FrameIdlesRuns(z, w);
    PublishIdles(w, TooltipRefresh, None, 0, false, true);
    IdlesChain(z, w, IssuePublish(w, TooltipRefresh, None, 0, false, true));
    IdlesChain(y, z, RefreshWhenReady(z));
    DoesThenIdles(x, y, RefreshWhenReady(z), reason, Calls(x.s, t, completion, ready, x.s.now), Some(t));
  }

  lemma SelfIdles(x: Step)
    ensures Idles(x, x)
  {
  }

  lemma FrameIdlesRuns(x: Step, y: Step)
    requires y.s.runs.jobs == x.s.runs.jobs && y.acts == x.acts
    ensures Idles(x, y)
  {
  }

  // ----- time

  lemma DeactivationDoes(x: Step)
    requires Home(x.s.runs.jobs)
    ensures Does(x, ExpireDeactivation(x), DemandEnded, iset{}, None)
  {
    hide Does, Idles, RefreshDemand, Home;
    var hidden := Step(x.s.(view := x.s.view.(deactivationDeadline := None, effectivePresented := false)), x.acts);
    FrameIdlesRuns(x, hidden);
    RefreshDemandDoes(hidden, true);
    IdlesThenDoes(x, hidden, RefreshDemand(hidden, true), DemandEnded, iset{}, None);
    SelfIdles(x);
    IdlesDoes(x, x, DemandEnded);
    var kept := Step(x.s.(view := x.s.view.(deactivationDeadline := None)), x.acts);
    FrameIdlesRuns(x, kept);
    IdlesDoes(x, kept, DemandEnded);
  }

  lemma LaterTimersIdle(x: Step)
    ensures Idles(x, ExpireActivation(x)) && Idles(x, DisplayTick(x)) && Idles(x, Step(TimeJobs(x.s), x.acts))
  {
    hide Idles, IssuePublish, SkippedIntervals, AdvancePast;
    SelfIdles(x);
    var a := Step(x.s.(view := x.s.view.(activationDeadline := None, activationWaiting := {})), x.acts);
    FrameIdlesRuns(x, a);
    PublishIdles(a, TooltipRefresh, None, 0, false, true);
    IdlesChain(x, a, IssuePublish(a, TooltipRefresh, None, 0, false, true));
    if Due(x.s.paint.nextDisplay, x.s.now) {
      var deadline := x.s.paint.nextDisplay.value;
      var skipped := SkippedIntervals(deadline, x.s.settings.displayInterval, x.s.now);
      var y := IssuePublish(x, DisplayDeadline, Some(deadline), skipped, true, x.s.view.effectivePresented);
      PublishIdles(x, DisplayDeadline, Some(deadline), skipped, true, x.s.view.effectivePresented);
      FrameIdlesRuns(y, Step(AdvanceDisplay(y.s), y.acts));
      IdlesChain(x, y, Step(AdvanceDisplay(y.s), y.acts));
    }
    TimedFlights(x.s);
    FrameIdles(x, Step(TimeJobs(x.s), x.acts));
  }

  lemma TimeDoes(s: State)
    requires Home(s.runs.jobs)
    ensures Does(Step(s, []), TimeFirst(s), DemandEnded, iset{}, None)
  {
    hide Does, Idles, ExpireDeactivation, IssueFirstPaint, ExpireActivation, DisplayTick, TimeJobs, Home;
    var x := Step(s, []);
    SelfIdles(x);
    IdlesDoes(x, x, DemandEnded);
    var a := ExpireDeactivation(x);
    var b := ExpireFirstPaint(a);
    var c := ExpireActivation(b);
    var d := DisplayTick(c);
    DeactivationDoes(x);
    SelfIdles(a);
    FirstPaintIdles(a, FirstPaintTimeout);
    LaterTimersIdle(b);
    LaterTimersIdle(c);
    LaterTimersIdle(d);
    IdlesChain(a, b, c);
    IdlesChain(a, c, d);
    IdlesChain(a, d, Step(TimeJobs(d.s), d.acts));
    DoesThenIdles(x, a, Step(TimeJobs(d.s), d.acts), DemandEnded, iset{}, None);
  }

  // ----- the arms

  lemma DoesThenCloses(x: Step, y: Step, z: Step, reason: CancelReason, others: iset<SchedulerAction>, t: JobTicket)
    requires Does(x, y, reason, iset{}, None) && Does(y, z, reason, others, Some(t)) && Flying(y.s.runs, t)
    ensures Does(x, z, reason, others, Some(t))
  {
    hide Home, IsDeed, Flying;
  }

  function ReasonOf(e: SchedulerEvent): CancelReason {
    match e
    case ConfigChanged(_, _) => ConfigReplaced
    case InventoryChanged(_, _) => SourceReplaced
    case Suspend(_) => ForSuspend
    case Shutdown(_) => ForShutdown
    case CriticalFailure(_, _) => ForCriticalFailure
    case _ => DemandEnded
  }

  /** The event's result is recorded: accepted, and not that of a run being cancelled. */
  predicate Records(s: State, e: SchedulerEvent, d: EventDisposition) {
    e.JobFinished? && d == Accepted && !Cancelling(s.runs, e.ticket) && e.ticket.job in s.runs.jobs
  }

  /** What the event asks for besides cancellations, read off the state before it. */
  ghost predicate Asks(s: State, e: SchedulerEvent, d: EventDisposition, a: SchedulerAction) {
    match e
    case ConfigChanged(_, config) => Invalidates(s.runs.jobs, config.jobs, ConfigReplaced, a)
    case InventoryChanged(_, update) => Invalidates(s.runs.jobs, update.jobs, SourceReplaced, a)
    case JobFinished(at, t, completion, ready) => Records(s, e, d) && CalledFor(s, t, completion, ready, at, a)
    case Resume(_) =>
      s.lifecycle == Suspended
      && (a == RescanHardware(s.handshake.nextReconciliationId)
          || (a.ResetCounterBaseline? && a.job in s.runs.jobs && s.runs.jobs[a.job].spec.counter))
    case Shutdown(_) => a == Terminate(None)
    case CriticalFailure(_, component) => a == Terminate(Some(component))
    case _ => false
  }

  ghost function Asked(s: State, e: SchedulerEvent, d: EventDisposition): iset<SchedulerAction> {
    iset a | Asks(s, e, d, a)
  }

  lemma ReconfigureDoes(s: State, config: SchedulerConfig)
    requires Home(s.runs.jobs) && DistinctIds(config.jobs)
    ensures Does(Step(s, []), Reconfigure(Step(s, []), config), ConfigReplaced, Invalidations(s.runs.jobs, config.jobs, ConfigReplaced), None)
  {
    hide Does, Idles, ReplaceJobs, ReanchorFastJobs, RefreshDemand, IssuePublish, Marked, DiscoveryJobs, Home, Invalidations;
    var x, x1 := Step(s, []), Step(Reset(s, config), []);
    FrameIdlesRuns(x, x1);
    var x2 := ReplaceJobs(x1, config.jobs, ConfigReplaced);
    ReplaceJobsDoes(x1, config.jobs, ConfigReplaced);
    var r := Step(ReanchorFastJobs(x2.s), x2.acts);
    ReanchorIdles(x2);
    assert Home(r.s.runs.jobs) by { DoesHome(x1, x2, ConfigReplaced, config.jobs, s.runs.jobs); ReanchorHome(x2.s); }
    var x3 := RefreshDemand(r, false);
    RefreshDemandDoes(r, false);
    var x4 := Step(MarkJobs(x3.s, DiscoveryJobs(x3.s)), x3.acts);
    MarkIdles(x3, DiscoveryJobs(x3.s));
    PublishIdles(x4, ConfigReload, None, 0, true, x4.s.view.effectivePresented);
    SelfIdles(x4);
    var y := Reconfigure(x, config);
    IdlesChain(x2, r, x3);
    IdlesChain(x2, x3, x4);
    IdlesChain(x2, x4, y);
    DoesThenIdles(x1, x2, y, ConfigReplaced, Invalidations(s.runs.jobs, config.jobs, ConfigReplaced), None);
    IdlesThenDoes(x, x1, y, ConfigReplaced, Invalidations(s.runs.jobs, config.jobs, ConfigReplaced), None);
  }

  lemma DoesHome(x: Step, y: Step, reason: CancelReason, specs: seq<JobSpec>, jobs: JobTable)
    requires Does(x, y, reason, Invalidations(jobs, specs, reason), None)
    ensures Home(y.s.runs.jobs)
  {
  }

  lemma ReanchorIdles(x: Step)
    ensures Idles(x, Step(ReanchorFastJobs(x.s), x.acts))
  {
    hide Reanchored;
    if x.s.paint.nextDisplay.Some? { ReanchoredFlights(x.s); }
  }

  lemma ReanchoredFlights(s: State)
    ensures SameInFlight(s.runs.jobs, ReanchorFastJobs(s).runs.jobs)
  {
  }

  lemma ReanchorHome(s: State)
    requires Home(s.runs.jobs)
    ensures Home(ReanchorFastJobs(s).runs.jobs)
  {
    ReanchoredFlights(s);
  }

  lemma MarkIdles(x: Step, which: set<JobId>)
    ensures Idles(x, Step(MarkJobs(x.s, which), x.acts))
  {
  }

  lemma InventoryDoes(s: State, update: InventoryUpdate)
    requires Home(s.runs.jobs) && DistinctIds(update.jobs)
    ensures Does(Step(s, []), ChangeInventory(Step(s, []), update), SourceReplaced,
                 Invalidations(s.runs.jobs, update.jobs, SourceReplaced), None)
  {
    hide Does, Idles, ReplaceJobs, ActivateJobs, RefreshDemand, RefreshAllDemanded, CurrentDemand, Acknowledges, Home, Invalidations;
    var resumes := Acknowledges(s, update);
    var before := CurrentDemand(s);
    var x, x1 := Step(s, []), Step(s.(settings := s.settings.(inventoryGeneration := update.generation, demand := update.demand)), []);
    FrameIdlesRuns(x, x1);
    var x2 := ReplaceJobs(x1, update.jobs, SourceReplaced);
    ReplaceJobsDoes(x1, update.jobs, SourceReplaced);
    var x3 := Step(if resumes then x2.s.(handshake := x2.s.handshake.(awaiting := None)) else x2.s, x2.acts);
    FrameIdlesRuns(x2, x3);
    var x4 := Step(ActivateJobs(x3.s, before, CurrentDemand(x3.s), x3.s.view.effectivePresented), x2.acts);
    ActivateIdles(x3, before, CurrentDemand(x3.s), x3.s.view.effectivePresented);
    DoesHome(x1, x2, SourceReplaced, update.jobs, s.runs.jobs);
    IdlesChain(x2, x3, x4);
    assert Home(x4.s.runs.jobs) by { IdlesHome(x2, x4); }
    var x5 := RefreshDemand(x4, false);
    RefreshDemandDoes(x4, false);
    var x6 := Step(RefreshAllDemanded(x5.s), x5.acts);
    RetryIdles(x5);
    SelfIdles(x5);
    var y := ChangeInventory(x, update);
    IdlesChain(x2, x4, x5);
    IdlesChain(x2, x5, y);
    DoesThenIdles(x1, x2, y, SourceReplaced, Invalidations(s.runs.jobs, update.jobs, SourceReplaced), None);
    IdlesThenDoes(x, x1, y, SourceReplaced, Invalidations(s.runs.jobs, update.jobs, SourceReplaced), None);
  }

  lemma IdlesHome(x: Step, y: Step)
    requires Idles(x, y) && Home(x.s.runs.jobs)
    ensures Home(y.s.runs.jobs)
  {
    HomeStays(x.s.runs.jobs, y.s.runs.jobs);
  }

  lemma RetryIdles(x: Step)
    ensures Idles(x, Step(RefreshAllDemanded(x.s), x.acts))
  {
    hide CurrentDemand, Sampling;
  }

  lemma BlockersIdle(x: Step)
    ensures Idles(x, RebuildFirstPaintBlockers(x))
  {
    hide Idles, IssueFirstPaint, FirstPaintBlockers, CurrentDemand;
    var blocked := Step(x.s.(paint := x.s.paint.(firstPaintWaiting := FirstPaintBlockers(x.s.runs.jobs, CurrentDemand(x.s)))), x.acts);
    SelfIdles(x);
    FrameIdlesRuns(x, blocked);
    FirstPaintIdles(blocked, FirstPaintReady);
    IdlesChain(x, blocked, IssueFirstPaint(blocked, FirstPaintReady));
  }

  lemma DemandDoes(s: State, demand: DemandPlan)
    requires Home(s.runs.jobs)
    ensures Does(Step(s, []), ChangeDemand(Step(s, []), demand), DemandEnded, iset{}, None)
  {
    hide Does, Idles, CancelDemandEnded, ActivateJobs, RefreshDemand, RebuildFirstPaintBlockers, CurrentDemand, Home;
    var before := CurrentDemand(s);
    var x, x1 := Step(s, []), Step(s.(settings := s.settings.(demand := demand)), []);
    var after := CurrentDemand(x1.s);
    FrameIdlesRuns(x, x1);
    var x2 := CancelDemandEnded(x1, before, after);
    CancelEndedDoes(x1, before, after);
    var x3 := Step(ActivateJobs(x2.s, before, after, x2.s.view.effectivePresented), x2.acts);
    ActivateIdles(x2, before, after, x2.s.view.effectivePresented);
    assert Home(x3.s.runs.jobs) by { EndedHome(x1, x2); IdlesHome(x2, x3); }
    RefreshDemandDoes(x3, false);
    var x4 := RefreshDemand(x3, false);
    BlockersIdle(x4);
    var y := ChangeDemand(x, demand);
    IdlesChain(x2, x3, x4);
    IdlesChain(x2, x4, y);
    DoesThenIdles(x1, x2, y, DemandEnded, iset{}, None);
    IdlesThenDoes(x, x1, y, DemandEnded, iset{}, None);
  }

  lemma EndedHome(x: Step, y: Step)
    requires Does(x, y, DemandEnded, iset{}, None)
    ensures Home(y.s.runs.jobs)
  {
  }

  lemma PageDoes(s: State, page: PageId)
    requires Home(s.runs.jobs)
    ensures Does(Step(s, []), ChangePage(Step(s, []), page), DemandEnded, iset{}, None)
  {
    hide Does, Idles, CancelDemandEnded, ActivateJobs, IssuePublish, CurrentDemand, Home;
    var before := CurrentDemand(s);
    var x, x1 := Step(s, []), Step(s.(view := s.view.(selectedPage := page)), []);
    var after := CurrentDemand(x1.s);
    SelfIdles(x);
    FrameIdlesRuns(x, x1);
    IdlesDoes(x, x, DemandEnded);
    IdlesDoes(x, x1, DemandEnded);
    var x2 := CancelDemandEnded(x1, before, after);
    CancelEndedDoes(x1, before, after);
    var x3 := Step(ActivateJobs(x2.s, before, after, true), x2.acts);
    ActivateIdles(x2, before, after, true);
    PublishIdles(x3, PageChanged, None, 0, false, true);
    var z := IssuePublish(x3, PageChanged, None, 0, false, true);
    IdlesChain(x2, x3, z);
    DoesThenIdles(x1, x2, x3, DemandEnded, iset{}, None);
    DoesThenIdles(x1, x2, z, DemandEnded, iset{}, None);
    IdlesThenDoes(x, x1, x3, DemandEnded, iset{}, None);
    IdlesThenDoes(x, x1, z, DemandEnded, iset{}, None);
  }

  lemma RefreshActivationIdles(x: Step)
    ensures Idles(x, RefreshActivation(x))
  {
    hide Idles, Stale, IssuePublish, Marked;
    var stale := Stale(x.s.runs.jobs);
    var waiting := x.s.view.activationWaiting + stale;
    var y := Step(MarkJobs(x.s, stale).(view := x.s.view.(activationWaiting := waiting)), x.acts);
    MarkIdles(x, stale);
    FrameIdlesRuns(Step(MarkJobs(x.s, stale), x.acts), y);
    IdlesChain(x, Step(MarkJobs(x.s, stale), x.acts), y);
    PublishIdles(y, TooltipActivated, None, 0, false, true);
    IdlesChain(x, y, IssuePublish(y, TooltipActivated, None, 0, false, true));
    FrameIdlesRuns(y, Step(y.s.(view := WaitFor(y.s.view, waiting, true, y.s.now)), x.acts));
    IdlesChain(x, y, Step(y.s.(view := WaitFor(y.s.view, waiting, true, y.s.now)), x.acts));
  }

  lemma PresentationIdles(s: State, presented: bool)
    ensures Idles(Step(s, []), ChangePresentation(Step(s, []), presented))
  {
    hide Idles, RefreshActivation, ActivateJobs, CurrentDemand, DemandPlan.Demanded;
    var x, shown := Step(s, []), s.(view := s.view.(presented := true, deactivationDeadline := None, effectivePresented := true));
    FrameIdlesRuns(x, Step(HideTooltip(s), []));
    FrameIdlesRuns(x, Step(shown, []));
    var before := shown.settings.demand.Demanded(false, shown.view.selectedPage);
    ActivateIdles(Step(shown, []), before, CurrentDemand(shown), true);
    IdlesChain(x, Step(shown, []), Step(ActivateJobs(shown, before, CurrentDemand(shown), true), []));
    RefreshActivationIdles(Step(ShowTooltip(s), []));
    IdlesChain(x, Step(ShowTooltip(s), []), RefreshActivation(Step(ShowTooltip(s), [])));
  }

  lemma {:induction false} BaselinesAre(ids: seq<JobId>, jobs: JobTable, a: SchedulerAction)
    requires forall id :: id in ids ==> id in jobs
    ensures a in BaselineResets(ids, jobs) <==> a.ResetCounterBaseline? && a.job in ids && jobs[a.job].spec.counter
  {
    if ids != [] {
      var last := |ids| - 1;
      assert ids == ids[..last] + [ids[last]];
      BaselinesAre(ids[..last], jobs, a);
    }
  }

  lemma AwakenedJobs(s: State)
    ensures var y := Awakened(s);
      && y.handshake == s.handshake && SameInFlight(s.runs.jobs, y.runs.jobs)
      && forall id :: id in s.runs.jobs ==> y.runs.jobs[id].spec == s.runs.jobs[id].spec
  {
  }

  lemma ResumedFlights(jobs: JobTable, demanded: set<JobId>, now: Time)
    ensures SameInFlight(jobs, ResumedJobs(jobs, demanded, now))
  {
    hide AdvancePast;
  }

  lemma ResumeDoes(s: State, e: SchedulerEvent)
    requires Home(s.runs.jobs) && e.Resume?
    ensures Does(Step(s, []), ResumeNow(Step(s, [])), DemandEnded, Asked(s, e, Accepted), None)
  {
    hide Awakened, ResumedJobs, CurrentDemand, BaselineResets;
    var x, y := Step(s, []), ResumeNow(Step(s, []));
    if s.lifecycle == Suspended {
      var s1 := Awakened(s);
      AwakenedJobs(s);
      ResumedFlights(s1.runs.jobs, CurrentDemand(s1), s1.now);
      SameFlying(s.runs, y.s.runs);
      HomeStays(s.runs.jobs, y.s.runs.jobs);
      hide Flying, Home;
      forall a | IsDeed(a)
        ensures a in y.acts <==> Asks(s, e, Accepted, a)
      {
        BaselinesAre(InOrder(s1.runs.jobs.Keys), s1.runs.jobs, a);
      }
    }
  }

  lemma StopDoes(s: State, reason: CancelReason, component: Option<string>)
    requires Home(s.runs.jobs)
    ensures Does(Step(s, []), StopNow(Step(s, []), reason, component), reason, iset{Terminate(component)}, None)
    ensures Does(Step(s, []), SuspendNow(Step(s, [])), ForSuspend, iset{}, None)
  {
    hide CancelWhere, Home, Ended;
    var x := Step(s, []);
    CancelDoes(x, s.runs.jobs.Keys, reason);
    CancelDoes(x, s.runs.jobs.Keys, ForSuspend);
    SelfIdles(x);
    IdlesDoes(x, x, ForSuspend);
    EndedSame(s, CancelAll(x, reason).s, StopNow(x, reason, component).s);
    EndedSame(s, CancelAll(x, ForSuspend).s, CancelAll(x, ForSuspend).s.(lifecycle := Suspended));
  }

  lemma EndedSame(s: State, a: State, b: State)
    requires a.runs == b.runs
    ensures forall t, gone :: Ended(s.runs, a.runs, gone, t) <==> Ended(s.runs, b.runs, gone, t)
  {
  }

  lemma StartDoes(s: State, config: SchedulerConfig, inventory: nat)
    requires s.runs.jobs == map[]
    ensures Does(Step(s, []), StartUp(Step(s, []), config, inventory), DemandEnded, iset{}, None)
  {
    hide IssueFirstPaint, TableOf, CurrentDemand, Sampling, StartupPanel, Idles, Does;
    var x := Step(s, []);
    var s1 := Started(s, config, inventory);
    var wanted := Sampling(CurrentDemand(s1), s1.runs.jobs);
    var waiting := s1.paint.firstPaintWaiting + StartupPanel(wanted, s1.runs.jobs);
    var x2 := Step(MarkJobs(s1, wanted).(paint := s1.paint.(firstPaintWaiting := waiting)), []);
    TableIsIdle(config.jobs, s.now, s.now + config.displayInterval);
    assert Does(x, x2, DemandEnded, iset{}, None) by { NoRunsDoes(x, x2); }
    SelfIdles(x2);
    FirstPaintIdles(x2, FirstPaintReady);
    DoesThenIdles(x, x2, StartUp(x, config, inventory), DemandEnded, iset{}, None);
  }

  lemma NoRunsDoes(x: Step, y: Step)
    requires x.s.runs.jobs == map[] && y.acts == x.acts && forall id :: id in y.s.runs.jobs ==> y.s.runs.jobs[id].inFlight.None?
    ensures Does(x, y, DemandEnded, iset{}, None)
  {
  }

  /** What a result calls for is the same before the time is processed. */
  lemma TimeLeavesCalls(s: State, t: JobTicket, completion: CompletionKind, ready: bool)
    requires t.job in s.runs.jobs
    ensures var x := TimeFirst(s).s;
      && t.job in x.runs.jobs && x.now == s.now
      && Calls(x, t, completion, ready, s.now) == Calls(s, t, completion, ready, s.now)
  {
    hide TimeFirst, RetryDelay, FailedOnce, Kept;
    TimeFirstGentle(s);
    TimeKeepsArmed(s);
    var x := TimeFirst(s).s;
    forall a
      ensures CalledFor(x, t, completion, ready, s.now, a) <==> CalledFor(s, t, completion, ready, s.now, a)
    {
    }
  }

  lemma TimeKeepsArmed(s: State)
    ensures TimeFirst(s).s.feed.notificationsArmed == s.feed.notificationsArmed
  {
    hide ExpireDeactivation, ExpireFirstPaint, ExpireActivation, DisplayTick, TimedJobs;
    var x := Step(s, []);
    var a := ExpireDeactivation(x);
    var b := ExpireFirstPaint(a);
    DeactivationArmed(x);
    PaintArmed(a);
    LaterArmed(b);
    LaterArmed(ExpireActivation(b));
  }

  lemma DeactivationArmed(x: Step)
    ensures ExpireDeactivation(x).s.feed == x.s.feed
  {
    hide CancelRuns, CancelActions, Moved, DemandRefreshed, CurrentDemand, PageWork;
  }

  lemma PaintArmed(x: Step)
    ensures ExpireFirstPaint(x).s.feed.notificationsArmed == x.s.feed.notificationsArmed
  {
    hide AdvancePast, Reanchored, FirstPaintSkips, HasTooltipPublication;
  }

  lemma LaterArmed(x: Step)
    ensures ExpireActivation(x).s.feed.notificationsArmed == x.s.feed.notificationsArmed
    ensures DisplayTick(x).s.feed.notificationsArmed == x.s.feed.notificationsArmed
  {
    hide AdvancePast, SkippedIntervals, HasTooltipPublication;
  }

  /** An arm that begins by processing the time. */
  lemma TickArmDoes(s: State, e: SchedulerEvent)
    requires Home(s.runs.jobs) && Ticks(e) && e.at == s.now
    requires Filed(s.runs) && (e.JobCancelled? ==> Cancelling(s.runs, e.ticket))
    ensures var (y, d) := Apply(s, e); Does(Step(s, []), y, DemandEnded, Asked(s, e, d), Closed(e, d))
  {
    hide Does, TimeFirst, FinishJob, Trigger, FinishCancellation, Cancelling, Home, Calls, Idles;
    var x := TimeFirst(s);
    var (y, d) := Apply(s, e);
    TimeDoes(s);
    EndedHome(Step(s, []), x);
    if e.JobFinished? && !Cancelling(s.runs, e.ticket) && Finishes(x.s, e.ticket) {
      var t := e.ticket;
      RecordedWasKnown(s, t);
      TimeLeavesCalls(s, t, e.completion, e.notificationReady);
      FinishDoes(x, t, e.completion, e.notificationReady, DemandEnded);
      DoesThenCloses(Step(s, []), x, y, DemandEnded, Calls(s, t, e.completion, e.notificationReady, s.now), t);
      RecordedAsks(s, e);
    } else {
      NothingAsked(s, e, d);
      QuietTail(x, e);
      SelfIdles(x);
      DoesThenIdles(Step(s, []), x, y, DemandEnded, iset{}, None);
      if e.JobFinished? || e.JobCancelled? { CancellingIsNotFlying(s.runs, e.ticket); }
      CloseUnflown(s, e, d, y);
    }
  }

  lemma CancellingIsNotFlying(r: Runs, t: JobTicket)
    requires Filed(r)
    ensures Cancelling(r, t) ==> !Flying(r, t)
  {
  }

  lemma RecordedWasKnown(s: State, t: JobTicket)
    requires Finishes(TimeFirst(s).s, t)
    ensures t.job in s.runs.jobs && Flying(TimeFirst(s).s.runs, t)
  {
    hide TimeFirst, Kept;
    TimeFirstGentle(s);
  }

  lemma RecordedAsks(s: State, e: SchedulerEvent)
    requires e.JobFinished? && e.at == s.now && !Cancelling(s.runs, e.ticket) && e.ticket.job in s.runs.jobs
    ensures Asked(s, e, Accepted) == Calls(s, e.ticket, e.completion, e.notificationReady, s.now)
  {
    hide CalledFor;
  }

  lemma NothingAsked(s: State, e: SchedulerEvent, d: EventDisposition)
    requires Ticks(e) && !Records(s, e, d)
    ensures Asked(s, e, d) == iset{}
  {
  }

  lemma QuietTail(x: Step, e: SchedulerEvent)
    requires Ticks(e)
    ensures e.RefreshTriggered? ==> Idles(x, Step(Trigger(x.s, e.job), x.acts))
    ensures e.JobFinished? || e.JobCancelled? ==> Idles(x, Step(FinishCancellation(x.s, e.ticket), x.acts))
  {
    hide Idles, Sampling, CurrentDemand;
    if e.RefreshTriggered? {
      MarkIdles(x, Sampling({e.job} * CurrentDemand(x.s), x.s.runs.jobs));
    } else if !e.TimeAdvanced? {
      FrameIdlesRuns(x, Step(FinishCancellation(x.s, e.ticket), x.acts));
    }
  }

  /** A run that is closed while being cancelled was not in flight, so it ends in no other way. */
  lemma CloseUnflown(s: State, e: SchedulerEvent, d: EventDisposition, y: Step)
    requires Does(Step(s, []), y, DemandEnded, iset{}, None)
    requires Closed(e, d).Some? ==> !Flying(s.runs, e.ticket)
    ensures Does(Step(s, []), y, DemandEnded, iset{}, Closed(e, d))
  {
    hide Flying, Home, IsDeed;
  }

  lemma ArmDoes(s: State, e: SchedulerEvent)
    requires Home(s.runs.jobs) && Filed(s.runs) && e.at == s.now
    requires e.JobCancelled? ==> Cancelling(s.runs, e.ticket)
    requires e.Startup? ==> s.runs.jobs == map[]
    requires e.ConfigChanged? ==> DistinctIds(e.config.jobs)
    requires e.InventoryChanged? ==> DistinctIds(e.update.jobs)
    ensures var (y, d) := Apply(s, e); Does(Step(s, []), y, ReasonOf(e), Asked(s, e, d), Closed(e, d))
  {
    hide Apply, Does, Home, Filed, Asked;
    if Ticks(e) {
      TickArmDoes(s, e);
    } else if e.Startup? || e.ConfigChanged? || e.InventoryChanged? || e.DemandChanged? || e.SelectedPageChanged? {
      PlanArmDoes(s, e);
    } else if e.Suspend? || e.Resume? || e.Shutdown? || e.CriticalFailure? {
      LifecycleArmDoes(s, e);
    } else {
      ViewArmDoes(s, e);
    }
  }

  lemma PlanArmDoes(s: State, e: SchedulerEvent)
    requires Home(s.runs.jobs)
    requires e.Startup? || e.ConfigChanged? || e.InventoryChanged? || e.DemandChanged? || e.SelectedPageChanged?
    requires e.Startup? ==> s.runs.jobs == map[]
    requires e.ConfigChanged? ==> DistinctIds(e.config.jobs)
    requires e.InventoryChanged? ==> DistinctIds(e.update.jobs)
    ensures var (y, d) := Apply(s, e); Does(Step(s, []), y, ReasonOf(e), Asked(s, e, d), Closed(e, d))
  {
    hide Does, StartUp, Reconfigure, ChangeInventory, ChangeDemand, ChangePage, Home, Asked, Invalidations;
    AskedIs(s, e);
    match e
    case Startup(_, config, inventory) => StartDoes(s, config, inventory);
    case ConfigChanged(_, config) => ReconfigureDoes(s, config);
    case InventoryChanged(_, update) => InventoryDoes(s, update);
    case DemandChanged(_, demand) => DemandDoes(s, demand);
    case SelectedPageChanged(_, page) => PageDoes(s, page);
  }

  lemma LifecycleArmDoes(s: State, e: SchedulerEvent)
    requires Home(s.runs.jobs) && (e.Suspend? || e.Resume? || e.Shutdown? || e.CriticalFailure?)
    ensures var (y, d) := Apply(s, e); Does(Step(s, []), y, ReasonOf(e), Asked(s, e, d), Closed(e, d))
  {
    hide Does, SuspendNow, ResumeNow, StopNow, Home, Asked;
    AskedIs(s, e);
    match e
    case Suspend(_) => StopDoes(s, ForSuspend, None);
    case Resume(_) => ResumeDoes(s, e);
    case Shutdown(_) => StopDoes(s, ForShutdown, None);
    case CriticalFailure(_, component) => StopDoes(s, ForCriticalFailure, Some(component));
  }

  lemma ViewArmDoes(s: State, e: SchedulerEvent)
    requires Home(s.runs.jobs)
    requires e.TooltipPresented? || e.TooltipReactivated? || e.DisplayRefreshRequested? || e.TooltipRefreshRequested? || e.PanelPublished?
    ensures var (y, d) := Apply(s, e); Does(Step(s, []), y, ReasonOf(e), Asked(s, e, d), Closed(e, d))
  {
    hide Does, ChangePresentation, RefreshActivation, IssuePublish, Home, Asked, Acknowledge, Idles;
    var x := Step(s, []);
    AskedIs(s, e);
    match e
    case TooltipPresented(_, presented) =>
      PresentationIdles(s, presented);
      IdlesDoes(x, ChangePresentation(x, presented), DemandEnded);
    case TooltipReactivated(_) =>
      SelfIdles(x);
      RefreshActivationIdles(x);
      IdlesDoes(x, x, DemandEnded);
      IdlesDoes(x, RefreshActivation(x), DemandEnded);
    case DisplayRefreshRequested(_) =>
      PublishIdles(x, ConfigReload, None, 0, true, s.view.effectivePresented);
      IdlesDoes(x, IssuePublish(x, ConfigReload, None, 0, true, s.view.effectivePresented), DemandEnded);
    case TooltipRefreshRequested(_) =>
      PublishIdles(x, TooltipRefresh, None, 0, false, true);
      IdlesDoes(x, IssuePublish(x, TooltipRefresh, None, 0, false, true), DemandEnded);
    case PanelPublished(_, publication) => AcknowledgeDoes(s, publication);
  }

  lemma AcknowledgeDoes(s: State, publication: PublicationId)
    requires Home(s.runs.jobs)
    ensures Does(Step(s, []), Step(Acknowledge(s, publication), []), DemandEnded, iset{}, None)
  {
    hide Does, Home;
    var x, y := Step(s, []), Step(Acknowledge(s, publication), []);
    FrameIdlesRuns(x, y);
    IdlesDoes(x, y, DemandEnded);
  }

  lemma AskedIs(s: State, e: SchedulerEvent)
    requires !Ticks(e)
    ensures e.ConfigChanged? ==> Asked(s, e, Accepted) == Invalidations(s.runs.jobs, e.config.jobs, ConfigReplaced)
    ensures e.InventoryChanged? ==> Asked(s, e, Accepted) == Invalidations(s.runs.jobs, e.update.jobs, SourceReplaced)
    ensures e.Shutdown? ==> Asked(s, e, Accepted) == iset{Terminate(None)}
    ensures e.CriticalFailure? ==> Asked(s, e, Accepted) == iset{Terminate(Some(e.component))}
    ensures !(e.ConfigChanged? || e.InventoryChanged? || e.Shutdown? || e.CriticalFailure? || e.Resume?) ==>
              Asked(s, e, Accepted) == iset{}
  {
    hide Invalidates;
  }

  // ----- one event

  lemma {:induction false} StartEachDeeds(x: Step, cs: seq<Candidate>)
    requires Listed(x.s.runs.jobs, cs)
    ensures SameDeeds(x.acts, StartEach(x, cs).acts)
  {
    hide Launch, TicketFor;
    if cs != [] { StartEachDeeds(x, cs[..|cs| - 1]); }
  }

  lemma SettleDeeds(x: Step, d: EventDisposition)
    ensures SameDeeds(x.acts, SortActions(Settle(x, d).acts))
  {
    hide StartEach, NextWake, CandidatesInOrder, Candidates;
    if d == Accepted && x.s.lifecycle == Running && x.s.handshake.awaiting.None? {
      var cs := CandidatesInOrder(Candidates(x.s));
      CandidatesListed(x.s);
      StartEachDeeds(x, cs);
    }
    var y := Settle(x, d);
    assert forall a :: IsDeed(a) ==> (a in x.acts <==> a in y.acts);
  }

  /** A run that was in flight before the event is in flight after dispatch exactly if it was before that. */
  lemma SettleFlights(s: State, e: SchedulerEvent, t: JobTicket)
    requires Inv(s) && EarlyRejection(s, e).None? && Flying(s.runs, t)
    ensures Flying(Handle(s, e).s.runs, t) <==> Flying(Apply(s.(now := e.at), e).0.s.runs, t)
  {
    hide Inv, Apply, ArmOk, Occupancy, Dispatch, NextWake, SortActions, EarlyRejection, Flying;
    var (x, d) := Apply(s.(now := e.at), e);
    ApplyFollows(s, e);
    ArmRuns(s.(now := e.at), x, Closed(e, d));
    DispatchStartsTheBest(x);
    OldTicket(s, t);
  }

  lemma ArmRuns(s: State, x: Step, gone: Option<JobTicket>)
    requires ArmOk(s, x, gone)
    ensures Occupancy(x.s.runs) && x.s.runs.nextRunId == s.runs.nextRunId && forall a :: a in x.acts ==> !a.StartJob?
  {
  }

  lemma OldTicket(s: State, t: JobTicket)
    requires Inv(s) && Flying(s.runs, t)
    ensures t.runId < s.runs.nextRunId
  {
    hide Inv;
    OutstandingBelow(s);
    assert Outstanding(s.runs, t);
  }

  lemma InvHome(s: State)
    requires Inv(s)
    ensures Home(s.runs.jobs) && Filed(s.runs)
    ensures s.lifecycle == Unstarted ==> s.runs.jobs == map[]
  {
  }

  lemma AsksNow(s: State, e: SchedulerEvent, d: EventDisposition, a: SchedulerAction)
    ensures Asks(s.(now := e.at), e, d, a) <==> Asks(s, e, d, a)
  {
    hide Invalidates, RetryDelay, FailedOnce;
  }

  /** Every event hands out cancellations, for the event's own reason, of exactly the runs that were in flight and are no
      longer, other than the run it closes; exactly what it asks for besides, as the state before tells; and otherwise
      only publications, starts and the wake-up. */
  lemma DeedsAreExact(s: State, e: SchedulerEvent, a: SchedulerAction)
    requires Inv(s) && EarlyRejection(s, e).None? && IsDeed(a)
    requires e.ConfigChanged? ==> DistinctIds(e.config.jobs)
    requires e.InventoryChanged? ==> DistinctIds(e.update.jobs)
    ensures var out := Handle(s, e);
      a in out.acts <==>
        (a.CancelJob? && a.reason == ReasonOf(e) && Ended(s.runs, out.s.runs, Closed(e, out.disposition), a.ticket))
        || Asks(s, e, out.disposition, a)
  {
    hide Inv, Apply, Asks, SortActions, Settle, EarlyRejection, IsDeed, Home, Flying, Filed;
    var s' := s.(now := e.at);
    var (x, d) := Apply(s', e);
    InvHome(s);
    GuardsHold(s, e);
    ArmDoes(s', e);
    SettleDeeds(x, d);
    AsksNow(s, e, d, a);
    if a.CancelJob? && Flying(s.runs, a.ticket) { SettleFlights(s, e, a.ticket); }
  }

  lemma GuardsHold(s: State, e: SchedulerEvent)
    requires EarlyRejection(s, e).None?
    ensures e.JobCancelled? ==> Cancelling(s.runs, e.ticket)
    ensures e.Startup? ==> s.lifecycle == Unstarted
  {
  }

  // ----- whole runs

  /** Every reloaded job list names each job once. */
  ghost predicate ListsDistinct(events: seq<SchedulerEvent>) {
    forall n :: 0 <= n < |events| ==>
      && (events[n].ConfigChanged? ==> DistinctIds(events[n].config.jobs))
      && (events[n].InventoryChanged? ==> DistinctIds(events[n].update.jobs))
  }

  /** Event `k` of the run hands out a cancellation of `t`. */
  predicate CancelsAt(events: seq<SchedulerEvent>, k: nat, t: JobTicket)
    requires k < |events|
  {
    exists a :: a in Handle(Run(INITIAL, events[..k]), events[k]).acts && a.CancelJob? && a.ticket == t
  }

  ghost predicate Told(events: seq<SchedulerEvent>, t: JobTicket) {
    exists k: nat :: k < |events| && CancelsAt(events, k, t)
  }

  /** One event cancels exactly what was in flight and is no longer. */
  lemma CancelsWhatEnds(s: State, e: SchedulerEvent, t: JobTicket)
    requires Inv(s)
    requires e.ConfigChanged? ==> DistinctIds(e.config.jobs)
    requires e.InventoryChanged? ==> DistinctIds(e.update.jobs)
    ensures (exists a :: a in Handle(s, e).acts && a.CancelJob? && a.ticket == t) <==>
      Ended(s.runs, Handle(s, e).s.runs, Closed(e, Handle(s, e).disposition), t)
  {
    hide Inv, Handle, EarlyRejection, Flying;
    if EarlyRejection(s, e).Some? {
      EarlyRejectionCloses(s, e);
    } else {
      var out := Handle(s, e);
      DeedsAreExact(s, e, CancelJob(t, ReasonOf(e)));
      CancelIsNotAsked(s, e, out.disposition, CancelJob(t, ReasonOf(e)));
      if a :| a in out.acts && a.CancelJob? && a.ticket == t {
        DeedsAreExact(s, e, a);
        CancelIsNotAsked(s, e, out.disposition, a);
      }
    }
  }

  lemma CancelIsNotAsked(s: State, e: SchedulerEvent, d: EventDisposition, a: SchedulerAction)
    requires a.CancelJob?
    ensures !Asks(s, e, d, a)
  {
    hide Voids, RetryDelay, FailedOnce;
  }

  lemma ToldMore(events: seq<SchedulerEvent>, t: JobTicket)
    requires events != []
    ensures Told(events, t) <==> Told(events[..|events| - 1], t) || CancelsAt(events, |events| - 1, t)
  {
    hide Handle, Run, CancelsAt;
    var front := events[..|events| - 1];
    forall k: nat | k < |front|
      ensures CancelsAt(front, k, t) <==> CancelsAt(events, k, t)
    {
      FrontCancels(events, k, t);
    }
  }

  lemma FrontCancels(events: seq<SchedulerEvent>, k: nat, t: JobTicket)
    requires k < |events| - 1
    ensures CancelsAt(events[..|events| - 1], k, t) <==> CancelsAt(events, k, t)
  {
    hide Handle, Run;
    assert events[..|events| - 1][..k] == events[..k];
  }

  /** What has been told of is an older run. */
  lemma {:induction false} ToldIsOlder(events: seq<SchedulerEvent>, t: JobTicket)
    requires ListsDistinct(events) && Told(events, t)
    ensures t.runId < Run(INITIAL, events).runs.nextRunId
  {
    hide Handle, Inv, CancelsAt, Flying;
    if events != [] {
      var front, last := events[..|events| - 1], |events| - 1;
      ToldMore(events, t);
      InitialInvariant();
      RunKeepsInvariant(INITIAL, front);
      var s := Run(INITIAL, front);
      HandleKeepsInvariant(s, events[last]);
      if Told(front, t) {
        ToldIsOlder(front, t);
      } else {
        assert Flying(s.runs, t) by { CancelledFlew(events, t); }
        OldTicket(s, t);
      }
    }
  }

  lemma CancelledFlew(events: seq<SchedulerEvent>, t: JobTicket)
    requires ListsDistinct(events) && events != [] && CancelsAt(events, |events| - 1, t)
    ensures Flying(Run(INITIAL, events[..|events| - 1]).runs, t)
  {
    hide Handle, Inv;
    InitialInvariant();
    RunKeepsInvariant(INITIAL, events[..|events| - 1]);
    CancelsWhatEnds(Run(INITIAL, events[..|events| - 1]), events[|events| - 1], t);
  }

  lemma FlyingOrCancelling(s: State, t: JobTicket)
    requires Inv(s) && Outstanding(s.runs, t)
    ensures Cancelling(s.runs, t) <==> !Flying(s.runs, t)
  {
    InvHome(s);
    if Cancelling(s.runs, t) { CancellingIsNotFlying(s.runs, t); }
  }

  /** An observer knows which of the runs that are not over are being cancelled: exactly those whose cancellation was
      handed out. */
  lemma {:induction false} CancellationsAreTold(events: seq<SchedulerEvent>, t: JobTicket)
    requires ListsDistinct(events) && t in Ledger(events)
    ensures Cancelling(Run(INITIAL, events).runs, t) <==> Told(events, t)
  {
    hide Handle, Inv, CancelsAt, Flying, Cancelling, Told;
    InitialInvariant();
    LedgerIsOutstanding(events, t);
    RunKeepsInvariant(INITIAL, events);
    FlyingOrCancelling(Run(INITIAL, events), t);
    if events == [] {
      NothingOutstanding(t);
    } else {
      var front, e := events[..|events| - 1], events[|events| - 1];
      var s := Run(INITIAL, front);
      RunKeepsInvariant(INITIAL, front);
      HandleKeepsInvariant(s, e);
      ToldMore(events, t);
      CancelsWhatEnds(s, e, t);
      CancelsAtIs(events, t);
      LedgerIsOutstanding(front, t);
      if t in Ledger(front) {
        CancellationsAreTold(front, t);
        FlyingOrCancelling(s, t);
        StaysCancelled(s, e, t);
      } else {
        assert Starts(Handle(s, e).acts, t);
        if Told(front, t) { ToldIsOlder(front, t); }
      }
    }
  }

  lemma CancelsAtIs(events: seq<SchedulerEvent>, t: JobTicket)
    requires events != []
    ensures var s, e := Run(INITIAL, events[..|events| - 1]), events[|events| - 1];
      CancelsAt(events, |events| - 1, t) <==> exists a :: a in Handle(s, e).acts && a.CancelJob? && a.ticket == t
  {
    hide Handle, Run;
  }

  /** A run that was not in flight before an event is not in flight after it, unless it is started. */
  lemma StaysCancelled(s: State, e: SchedulerEvent, t: JobTicket)
    requires Inv(s) && Outstanding(s.runs, t) && Outstanding(Handle(s, e).s.runs, t)
    ensures !Flying(s.runs, t) ==> !Flying(Handle(s, e).s.runs, t)
    ensures Closed(e, Handle(s, e).disposition) != Some(t)
  {
    hide Inv, Handle, Flying, Cancelling;
    HandleKeepsInvariant(s, e);
    OutstandingBelow(s);
  }

  // ----- what a started run is for

  /** The run's ticket carries the current generations and, for a device, the metrics asked for: the hidden ones, and
      those of the tooltip while that is presented. */
  ghost predicate Equipped(s: State, t: JobTicket) {
    && t.job in s.runs.jobs
    && t.configGeneration == s.settings.configGeneration && t.inventoryGeneration == s.settings.inventoryGeneration
    && var amd := s.runs.jobs[t.job].spec.amd;
       t.metrics == if amd.None? then {} else if s.view.presented then amd.value.hidden + amd.value.tooltip else amd.value.hidden
  }

  ghost predicate SameSpecs(a: State, b: State) {
    b.settings == a.settings && b.view == a.view && b.runs.jobs.Keys == a.runs.jobs.Keys
    && forall id :: id in a.runs.jobs ==> b.runs.jobs[id].spec == a.runs.jobs[id].spec
  }

  lemma {:induction false} StartEachEquips(x: Step, cs: seq<Candidate>)
    requires Listed(x.s.runs.jobs, cs) && forall a :: a in x.acts ==> !a.StartJob?
    ensures var y := StartEach(x, cs); SameSpecs(x.s, y.s) && forall t :: Starts(y.acts, t) ==> Equipped(x.s, t)
  {
    if cs != [] {
      var last := |cs| - 1;
      var y := StartEach(x, cs[..last]);
      StartEachEquips(x, cs[..last]);
      StartOneEquips(x.s, y, cs[last].id);
    }
  }

  lemma StartOneEquips(s: State, x: Step, id: JobId)
    requires SameSpecs(s, x.s) && id in x.s.runs.jobs && forall t :: Starts(x.acts, t) ==> Equipped(s, t)
    ensures var y := StartOne(x, id); SameSpecs(s, y.s) && forall t :: Starts(y.acts, t) ==> Equipped(s, t)
  {
  }

  lemma EquippedSame(a: State, b: State, t: JobTicket)
    requires SameSpecs(a, b) && Equipped(a, t)
    ensures Equipped(b, t)
  {
  }

  lemma StartedIsEquipped(s: State, e: SchedulerEvent, t: JobTicket)
    requires Inv(s) && Starts(Handle(s, e).acts, t)
    ensures Equipped(Handle(s, e).s, t)
  {
    hide Inv, Apply, ArmOk, Occupancy, NextWake, SortActions, EarlyRejection, StartEach, Equipped, CandidatesInOrder, Candidates;
    if EarlyRejection(s, e).Some? {
      EarlyRejectionCloses(s, e);
    } else {
      var (x, d) := Apply(s.(now := e.at), e);
      ApplyFollows(s, e);
      ArmRuns(s.(now := e.at), x, Closed(e, d));
      SortKeepsStarts(Settle(x, d).acts);
      CandidatesListed(x.s);
      StartEachEquips(x, CandidatesInOrder(Candidates(x.s)));
      EquippedSame(x.s, Handle(s, e).s, t);
    }
  }
}
