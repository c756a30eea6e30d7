/** How each part of an event treats the runs: only dispatch starts one, only a result or an
    acknowledgement releases one. */
module SchedulerSteps {
  import opened Wrappers
  import opened SchedulerPolicy
  import opened SchedulerModel
  import opened SchedulerSpec
  import opened SchedulerSafety

  ghost predicate NothingStarted(a: seq<SchedulerAction>, b: seq<SchedulerAction>) {
    forall x :: x in b && (x.StartJob? || x.ScheduleDeadline?) ==> x in a
  }

  ghost predicate ViewOk(v: View) {
    && (v.effectivePresented <==> v.presented || v.deactivationDeadline.Some?)
    && (v.presented ==> v.deactivationDeadline.None?)
  }

  ghost predicate PaintOk(p: Paint) {
    && p.nextDisplay.Some?
    && (p.firstPaintIssued ==> p.firstPaintDeadline.None? && p.firstPaintWaiting == {})
    && (!p.firstPaintIssued ==> p.firstPaintDeadline.Some?)
  }

  ghost predicate FeedOk(f: Feed, acts: seq<SchedulerAction>) {
    && (forall p :: p in f.panelPublications ==> p < f.nextPublicationId)
    && (forall a :: a in acts && a.PublishDisplay? ==> a.publication < f.nextPublicationId)
  }

  ghost predicate Sound(x: Step) {
    ViewOk(x.s.view) && PaintOk(x.s.paint) && FeedOk(x.s.feed, x.acts)
  }

  ghost predicate SameGenerations(a: State, b: State) {
    && a.settings.configGeneration == b.settings.configGeneration
    && a.settings.inventoryGeneration == b.settings.inventoryGeneration
  }

  /** A step that starts and releases nothing and leaves clock, generations and lifecycle alone. */
  ghost predicate Calm(x: Step, y: Step) {
    && Steady(x.s.runs, y.s.runs) && Occupancy(y.s.runs)
    && x.s.lifecycle == y.s.lifecycle && x.s.now == y.s.now
    && SameGenerations(x.s, y.s) && x.s.handshake == y.s.handshake
    && NothingStarted(x.acts, y.acts)
    && (Sound(x) ==> Sound(y))
  }

  lemma CalmChain(x: Step, y: Step, z: Step)
    requires Calm(x, y) && Calm(y, z)
    ensures Calm(x, z) && Occupancy(z.s.runs)
  {
    hide Occupancy, Sound, Flying, Filed;
    assert forall t :: Outstanding(x.s.runs, t) <==> Outstanding(y.s.runs, t);
  }

  lemma CalmSelf(x: Step)
    requires Occupancy(x.s.runs)
    ensures Calm(x, x)
  {
    hide Occupancy, Sound, Filed;
  }

  /** New bookkeeping in the job table. */
  lemma KeepsIsCalm(x: Step, y: Step)
    requires Occupancy(x.s.runs) && Keeps(x.s.runs.jobs, y.s.runs.jobs)
    requires y.s.runs == x.s.runs.(jobs := y.s.runs.jobs)
    requires x.s.lifecycle == y.s.lifecycle && x.s.now == y.s.now
    requires SameGenerations(x.s, y.s) && x.s.handshake == y.s.handshake
    requires NothingStarted(x.acts, y.acts)
    requires Sound(x) ==> Sound(y)
    ensures Calm(x, y) && Occupancy(y.s.runs)
  {
    hide Occupancy, Sound, Filed, Keeps, Steady;
    KeepsIsSteady(x.s.runs, y.s.runs.jobs);
    SteadyKeepsOccupancy(x.s.runs, y.s.runs);
  }

  // ----- publications

  lemma PublishIsSound(o: Outbound, why: PublishReason, deadline: Option<Time>, skipped: nat, panel: bool, tooltip: bool)
    ensures var r := Publish(o, why, deadline, skipped, panel, tooltip);
      && NothingStarted(o.acts, r.acts)
      && (FeedOk(o.feed, o.acts) ==> FeedOk(r.feed, r.acts))
  {
    hide HasTooltipPublication;
    var r := Publish(o, why, deadline, skipped, panel, tooltip);
    var i := FirstRefresh(o.acts);
    assert i < |o.acts| ==> o.acts[i] in o.acts;
  }

  lemma PublishIsCalm(x: Step, why: PublishReason, deadline: Option<Time>, skipped: nat, panel: bool, tooltip: bool)
    requires Occupancy(x.s.runs)
    ensures Calm(x, IssuePublish(x, why, deadline, skipped, panel, tooltip))
  {
    hide Publish, Occupancy, FeedOk, ViewOk, PaintOk, Steady, NothingStarted;
    PublishIsSound(Outbound(x.s.feed, x.acts), why, deadline, skipped, panel, tooltip && x.s.view.presented);
    assert Steady(x.s.runs, x.s.runs) by { CalmSelf(x); }
  }

  lemma FirstPaintIsCalm(x: Step, why: PublishReason)
    requires Occupancy(x.s.runs)
    ensures Calm(x, IssueFirstPaint(x, why))
  {
    hide Occupancy, IssuePublish, Calm, FeedOk, ViewOk, AdvancePast, FirstPaintSkips, Reanchored;
    if x.s.paint.firstPaintIssued {
      CalmSelf(x);
    } else {
      var y := Step(Painted(x.s), x.acts);
      PaintedIsCalm(x);
      PublishIsCalm(y, why, None, FirstPaintSkips(x.s), true, x.s.view.effectivePresented);
      CalmChain(x, y, IssueFirstPaint(x, why));
    }
  }

  lemma PaintedIsCalm(x: Step)
    requires Occupancy(x.s.runs)
    ensures Calm(x, Step(Painted(x.s), x.acts)) && Occupancy(Painted(x.s).runs)
  {
    hide Occupancy, Calm, FeedOk, ViewOk, AdvancePast;
    KeepsIsCalm(x, Step(Painted(x.s), x.acts));
  }

  lemma PaintWhenReadyIsCalm(x: Step)
    requires Occupancy(x.s.runs)
    ensures Calm(x, PaintWhenReady(x))
  {
    hide Occupancy, Calm, IssueFirstPaint;
    CalmSelf(x);
    FirstPaintIsCalm(x, FirstPaintReady);
  }

  // ----- demand

  lemma CancelIsCalm(x: Step, which: set<JobId>, reason: CancelReason)
    requires Occupancy(x.s.runs)
    ensures Calm(x, CancelWhere(x, which, reason))
    ensures which >= x.s.runs.jobs.Keys ==> Grounded(CancelWhere(x, which, reason).s.runs)
  {
    hide Occupancy, Sound, CancelRuns, Steady;
    CancelIsSteady(x.s.runs, which);
    SteadyKeepsOccupancy(x.s.runs, CancelRuns(x.s.runs, which));
    CancelIsSound(x, which, reason);
  }

  lemma CancelIsSound(x: Step, which: set<JobId>, reason: CancelReason)
    ensures var y := CancelWhere(x, which, reason);
      NothingStarted(x.acts, y.acts) && (Sound(x) ==> Sound(y))
  {
    hide CancelRuns, ViewOk, PaintOk;
  }

  lemma RefreshDemandIsCalm(x: Step, cancelPageJobs: bool)
    requires Occupancy(x.s.runs)
    ensures Calm(x, RefreshDemand(x, cancelPageJobs))
  {
    hide Occupancy, Calm, Sound, CancelWhere;
    var demanded := CurrentDemand(x.s);
    var y := Step(WithJobs(x.s, DemandRefreshed(x.s.runs.jobs, demanded, x.s.now)), x.acts);
    assert Sound(x) ==> Sound(y) by { SoundFrame(x, y); }
    KeepsIsCalm(x, y);
    if cancelPageJobs {
      var ended := PageWork(x.s.runs.jobs.Keys - demanded);
      CancelIsCalm(y, ended, DemandEnded);
      CalmChain(x, y, CancelWhere(y, ended, DemandEnded));
    }
  }

  lemma SoundFrame(x: Step, y: Step)
    requires x.s.view == y.s.view && x.s.paint == y.s.paint && x.s.feed == y.s.feed && x.acts == y.acts
    ensures Sound(x) ==> Sound(y)
  {
  }

  lemma CancelDemandEndedIsCalm(x: Step, before: set<JobId>, after: set<JobId>)
    requires Occupancy(x.s.runs)
    ensures Calm(x, CancelDemandEnded(x, before, after))
  {
    hide Occupancy, Calm, Sound, CancelWhere, PageWork;
    var ended := PageWork(before - after);
    var y := Step(WithJobs(x.s, AllRested(x.s.runs.jobs, ended)), x.acts);
    assert Sound(x) ==> Sound(y) by { SoundFrame(x, y); }
    KeepsIsCalm(x, y);
    CancelIsCalm(y, ended, DemandEnded);
    CalmChain(x, y, CancelWhere(y, ended, DemandEnded));
  }

  lemma MarkJobsIsCalm(x: Step, which: set<JobId>)
    requires Occupancy(x.s.runs)
    ensures Calm(x, Step(MarkJobs(x.s, which), x.acts))
  {
    hide Occupancy, Calm, Sound;
    var y := Step(MarkJobs(x.s, which), x.acts);
    assert Sound(x) ==> Sound(y) by { SoundFrame(x, y); }
    KeepsIsCalm(x, y);
  }

  lemma ActivateIsCalm(x: Step, before: set<JobId>, after: set<JobId>, track: bool)
    requires Occupancy(x.s.runs)
    ensures Calm(x, Step(ActivateJobs(x.s, before, after, track), x.acts))
    ensures ActivateJobs(x.s, before, after, track).view.presented == x.s.view.presented
  {
    hide Occupancy, Calm, PaintOk, FeedOk, Sampling;
    KeepsIsCalm(x, Step(ActivateJobs(x.s, before, after, track), x.acts));
  }

  lemma RebuildIsCalm(x: Step)
    requires Occupancy(x.s.runs)
    ensures Calm(x, RebuildFirstPaintBlockers(x))
  {
    hide Occupancy, Calm, ViewOk, FeedOk, PaintWhenReady, FirstPaintBlockers;
    if x.s.paint.firstPaintIssued {
      CalmSelf(x);
    } else {
      var blockers := FirstPaintBlockers(x.s.runs.jobs, CurrentDemand(x.s));
      var y := Step(x.s.(paint := x.s.paint.(firstPaintWaiting := blockers)), x.acts);
      KeepsIsCalm(x, y);
      PaintWhenReadyIsCalm(y);
      CalmChain(x, y, PaintWhenReady(y));
    }
  }

  lemma RefreshAllIsCalm(x: Step)
    requires Occupancy(x.s.runs)
    ensures Calm(x, Step(RefreshAllDemanded(x.s), x.acts))
  {
    hide Occupancy, Calm, Sound, Sampling;
    var y := Step(RefreshAllDemanded(x.s), x.acts);
    assert Sound(x) ==> Sound(y) by { SoundFrame(x, y); }
    KeepsIsCalm(x, y);
  }

  lemma ReanchorIsCalm(x: Step)
    requires Occupancy(x.s.runs)
    ensures Calm(x, Step(ReanchorFastJobs(x.s), x.acts))
  {
    hide Occupancy, Calm, Sound;
    var y := Step(ReanchorFastJobs(x.s), x.acts);
    assert Sound(x) ==> Sound(y) by { SoundFrame(x, y); }
    KeepsIsCalm(x, y);
  }

  lemma RefreshActivationIsCalm(x: Step)
    requires Occupancy(x.s.runs)
    ensures Calm(x, RefreshActivation(x))
  {
    hide Occupancy, Calm, PaintOk, FeedOk, IssuePublish, Stale;
    var stale := Stale(x.s.runs.jobs);
    var waiting := x.s.view.activationWaiting + stale;
    var y := Step(MarkJobs(x.s, stale).(view := x.s.view.(activationWaiting := waiting)), x.acts);
    KeepsIsCalm(x, y);
    if waiting == {} {
      PublishIsCalm(y, TooltipActivated, None, 0, false, true);
      CalmChain(x, y, IssuePublish(y, TooltipActivated, None, 0, false, true));
    } else {
      KeepsIsCalm(x, RefreshActivation(x));
    }
  }

  // ----- replacing the job table

  /** Nothing in a table is in flight, and each job is filed under its own identity. */
  ghost predicate Idle(jobs: JobTable) {
    forall id :: id in jobs ==> jobs[id].spec.id == id && jobs[id].inFlight.None?
  }

  lemma ReplaceOneIdle(r: Replacement, spec: JobSpec, now: Time, display: Time, reason: CancelReason)
    requires Idle(r.previous) && Idle(r.table)
    ensures var q := ReplaceOne(r, spec, now, display, reason);
      Idle(q.previous) && Idle(q.table) && NothingStarted(r.acts, q.acts)
      && (forall a :: a in q.acts && a.PublishDisplay? ==> a in r.acts)
  {
    hide ClearedMetrics, SourceChanged;
  }

  lemma {:induction false} ReplaceEachIdle(r: Replacement, specs: seq<JobSpec>, now: Time, display: Time, reason: CancelReason)
    requires Idle(r.previous) && Idle(r.table)
    ensures var q := ReplaceEach(r, specs, now, display, reason);
      Idle(q.previous) && Idle(q.table) && NothingStarted(r.acts, q.acts)
      && (forall a :: a in q.acts && a.PublishDisplay? ==> a in r.acts)
  {
    hide ReplaceOne;
    if specs != [] {
      var last := |specs| - 1;
      ReplaceEachIdle(r, specs[..last], now, display, reason);
      ReplaceOneIdle(ReplaceEach(r, specs[..last], now, display, reason), specs[last], now, display, reason);
    }
  }

  /** An idle table in place of a grounded one keeps every obligation of the cancelled runs. */
  lemma IdleTableIsSteady(r: Runs, jobs: JobTable)
    requires Occupancy(r) && Grounded(r) && Idle(jobs)
    ensures Steady(r, r.(jobs := jobs)) && Grounded(r.(jobs := jobs)) && Occupancy(r.(jobs := jobs))
  {
    var after := r.(jobs := jobs);
    assert forall t :: !Flying(after, t);
    SteadyKeepsOccupancy(r, after);
  }

  /** Replacing the job table cancels every run in flight and keeps the cancelled ones outstanding. */
  lemma ReplaceJobsIsCalm(x: Step, specs: seq<JobSpec>, reason: CancelReason)
    requires Occupancy(x.s.runs)
    ensures Calm(x, ReplaceJobs(x, specs, reason))
    ensures Grounded(ReplaceJobs(x, specs, reason).s.runs)
  {
    hide Occupancy, Calm, CancelWhere, ReplaceEach, Resettled, Sound;
    var x1 := CancelAll(x, reason);
    CancelIsCalm(x, x.s.runs.jobs.Keys, reason);
    var r := Replacement(x1.s.runs.jobs, map[], x1.acts);
    assert Occupancy(x1.s.runs) by { CalmFacts(x, x1); }
    assert Idle(r.previous) by { GroundedIsIdle(x1.s.runs); }
    var display := DisplayAnchor(x1.s);
    ReplaceEachIdle(r, specs, x1.s.now, display, reason);
    var q := ReplaceEach(r, specs, x1.s.now, display, reason);
    var y := Step(WithJobs(x1.s, q.table), q.acts + InvalidateAll(InOrder(q.previous.Keys), reason));
    NewTableIsCalm(x1, y);
    CalmChain(x, x1, y);
    ResettledIsCalm(y);
    CalmChain(x, y, Step(Resettled(y.s), y.acts));
  }

  lemma CalmFacts(x: Step, y: Step)
    requires Calm(x, y)
    ensures Occupancy(y.s.runs)
    ensures Grounded(x.s.runs) ==> Grounded(y.s.runs)
    ensures x.s.lifecycle == y.s.lifecycle && x.s.now == y.s.now && x.s.handshake == y.s.handshake
  {
  }

  lemma GroundedIsIdle(r: Runs)
    requires Occupancy(r) && Grounded(r)
    ensures Idle(r.jobs)
  {
    forall id | id in r.jobs
      ensures r.jobs[id].inFlight.None?
    {
      if r.jobs[id].inFlight.Some? { assert Flying(r, r.jobs[id].inFlight.value); }
    }
  }

  lemma NewTableIsCalm(x: Step, y: Step)
    requires Occupancy(x.s.runs) && Grounded(x.s.runs) && Idle(y.s.runs.jobs)
    requires y.s == WithJobs(x.s, y.s.runs.jobs)
    requires NothingStarted(x.acts, y.acts) && forall a :: a in y.acts && a.PublishDisplay? ==> a in x.acts
    ensures Calm(x, y) && Grounded(y.s.runs) && Occupancy(y.s.runs)
  {
    hide Occupancy, Steady;
    IdleTableIsSteady(x.s.runs, y.s.runs.jobs);
  }

  lemma ResettledIsCalm(x: Step)
    requires Occupancy(x.s.runs)
    ensures Calm(x, Step(Resettled(x.s), x.acts))
    ensures Grounded(x.s.runs) ==> Grounded(Resettled(x.s).runs)
  {
    hide Occupancy, Calm, FeedOk, FirstPaintBlockers;
    KeepsIsCalm(x, Step(Resettled(x.s), x.acts));
    CalmFacts(x, Step(Resettled(x.s), x.acts));
  }

  // ----- time

  lemma ExpireDeactivationIsCalm(x: Step)
    requires Occupancy(x.s.runs)
    ensures Calm(x, ExpireDeactivation(x)) && Occupancy(ExpireDeactivation(x).s.runs)
  {
    hide Occupancy, Calm, PaintOk, FeedOk, RefreshDemand;
    if !Due(x.s.view.deactivationDeadline, x.s.now) {
      CalmSelf(x);
    } else if x.s.view.presented {
      KeepsIsCalm(x, ExpireDeactivation(x));
    } else {
      var y := Step(x.s.(view := x.s.view.(deactivationDeadline := None, effectivePresented := false)), x.acts);
      KeepsIsCalm(x, y);
      RefreshDemandIsCalm(y, true);
      CalmChain(x, y, RefreshDemand(y, true));
    }
  }

  lemma ExpireFirstPaintIsCalm(x: Step)
    requires Occupancy(x.s.runs)
    ensures Calm(x, ExpireFirstPaint(x)) && Occupancy(ExpireFirstPaint(x).s.runs)
  {
    hide Occupancy, Calm, IssueFirstPaint;
    CalmSelf(x);
    FirstPaintIsCalm(x, FirstPaintTimeout);
    CalmChain(x, x, ExpireFirstPaint(x));
  }

  lemma ExpireActivationIsCalm(x: Step)
    requires Occupancy(x.s.runs)
    ensures Calm(x, ExpireActivation(x)) && Occupancy(ExpireActivation(x).s.runs)
  {
    hide Occupancy, Calm, PaintOk, FeedOk, IssuePublish;
    if !Due(x.s.view.activationDeadline, x.s.now) {
      CalmSelf(x);
    } else {
      var y := Step(x.s.(view := x.s.view.(activationDeadline := None, activationWaiting := {})), x.acts);
      KeepsIsCalm(x, y);
      PublishIsCalm(y, TooltipRefresh, None, 0, false, true);
      CalmChain(x, y, IssuePublish(y, TooltipRefresh, None, 0, false, true));
    }
  }

  lemma DisplayTickIsCalm(x: Step)
    requires Occupancy(x.s.runs)
    ensures Calm(x, DisplayTick(x)) && Occupancy(DisplayTick(x).s.runs)
  {
    hide Occupancy, Calm, ViewOk, FeedOk, IssuePublish, SkippedIntervals, AdvancePast;
    if !(x.s.paint.firstPaintIssued && Due(x.s.paint.nextDisplay, x.s.now)) {
      CalmSelf(x);
    } else {
      var deadline := x.s.paint.nextDisplay.value;
      var skipped := SkippedIntervals(deadline, x.s.settings.displayInterval, x.s.now);
      var y := IssuePublish(x, DisplayDeadline, Some(deadline), skipped, true, x.s.view.effectivePresented);
      PublishIsCalm(x, DisplayDeadline, Some(deadline), skipped, true, x.s.view.effectivePresented);
      CalmChain(x, x, y) by { CalmSelf(x); }
      KeepsIsCalm(y, DisplayTick(x));
      CalmChain(x, y, DisplayTick(x));
    }
  }

  lemma TimedKeeps(jobs: JobTable, demanded: set<JobId>, now: Time)
    ensures Keeps(jobs, TimedJobs(jobs, demanded, now))
  {
    hide TimedRuntime, HistoryReady;
    forall id | id in jobs
      ensures TimedJobs(jobs, demanded, now)[id].spec == jobs[id].spec
      ensures TimedJobs(jobs, demanded, now)[id].inFlight == jobs[id].inFlight
    {
      TimedKeepsRun(jobs[id], HistoryReady(jobs[id].spec, jobs), now);
    }
  }

  lemma TimedKeepsRun(rt: JobRuntime, ready: bool, now: Time)
    ensures TimedRuntime(rt, ready, now).spec == rt.spec && TimedRuntime(rt, ready, now).inFlight == rt.inFlight
  {
    hide AdvancePast, LatestDueAtOrBefore;
  }

  lemma ProcessTimeIsCalm(x: Step)
    requires Occupancy(x.s.runs)
    ensures Calm(x, ProcessTime(x)) && Occupancy(ProcessTime(x).s.runs)
  {
    hide Occupancy, Calm, Sound, ExpireDeactivation, ExpireFirstPaint, ExpireActivation, DisplayTick, TimedJobs, Keeps;
    var a := ExpireDeactivation(x);
    var b := ExpireFirstPaint(a);
    var c := ExpireActivation(b);
    var d := DisplayTick(c);
    ExpireDeactivationIsCalm(x);
    ExpireFirstPaintIsCalm(a);
    ExpireActivationIsCalm(b);
    DisplayTickIsCalm(c);
    CalmChain(x, a, b);
    CalmChain(x, b, c);
    CalmChain(x, c, d);
    TimedKeeps(d.s.runs.jobs, CurrentDemand(d.s), d.s.now);
    assert Sound(d) ==> Sound(ProcessTime(x)) by { SoundFrame(d, ProcessTime(x)); }
    KeepsIsCalm(d, ProcessTime(x));
    CalmChain(x, d, ProcessTime(x));
  }

  // ----- events that change what is wanted

  lemma ChangeDemandIsCalm(x: Step, demand: DemandPlan)
    requires Occupancy(x.s.runs)
    ensures Calm(x, ChangeDemand(x, demand)) && Occupancy(ChangeDemand(x, demand).s.runs)
  {
    hide Occupancy, Calm, Sound, CancelDemandEnded, ActivateJobs, RefreshDemand, RebuildFirstPaintBlockers;
    var before := CurrentDemand(x.s);
    var x1 := Step(x.s.(settings := x.s.settings.(demand := demand)), x.acts);
    var after := CurrentDemand(x1.s);
    var x2 := CancelDemandEnded(x1, before, after);
    var x3 := Step(ActivateJobs(x2.s, before, after, x2.s.view.effectivePresented), x2.acts);
    var x4 := RefreshDemand(x3, false);
    assert Sound(x) ==> Sound(x1) by { SoundFrame(x, x1); }
    KeepsIsCalm(x, x1);
    CancelDemandEndedIsCalm(x1, before, after);
    CalmChain(x, x1, x2);
    ActivateIsCalm(x2, before, after, x2.s.view.effectivePresented);
    CalmChain(x, x2, x3);
    RefreshDemandIsCalm(x3, false);
    CalmChain(x, x3, x4);
    RebuildIsCalm(x4);
    CalmChain(x, x4, RebuildFirstPaintBlockers(x4));
  }

  lemma ChangePageIsCalm(x: Step, page: PageId)
    requires Occupancy(x.s.runs)
    ensures Calm(x, ChangePage(x, page)) && Occupancy(ChangePage(x, page).s.runs)
  {
    hide Occupancy, Calm, Sound, CancelDemandEnded, ActivateJobs, IssuePublish;
    CalmSelf(x);
    if page != x.s.view.selectedPage {
      var before := CurrentDemand(x.s);
      var x1 := Step(x.s.(view := x.s.view.(selectedPage := page)), x.acts);
      assert Sound(x) ==> Sound(x1) by { SelectionIsSound(x, page); }
      KeepsIsCalm(x, x1);
      if x1.s.view.effectivePresented {
        var after := CurrentDemand(x1.s);
        var x2 := CancelDemandEnded(x1, before, after);
        var x3 := Step(ActivateJobs(x2.s, before, after, true), x2.acts);
        CancelDemandEndedIsCalm(x1, before, after);
        CalmChain(x, x1, x2);
        ActivateIsCalm(x2, before, after, true);
        CalmChain(x, x2, x3);
        PublishIsCalm(x3, PageChanged, None, 0, false, true);
        CalmChain(x, x3, IssuePublish(x3, PageChanged, None, 0, false, true));
      }
    }
  }

  lemma SelectionIsSound(x: Step, page: PageId)
    ensures Sound(x) ==> Sound(Step(x.s.(view := x.s.view.(selectedPage := page)), x.acts))
  {
  }

  lemma ShowIsCalm(x: Step)
    requires Occupancy(x.s.runs)
    ensures Calm(x, Step(ShowTooltip(x.s), x.acts)) && Occupancy(ShowTooltip(x.s).runs)
  {
    hide Occupancy, Calm, PaintOk, FeedOk, ActivateJobs;
    var y := Step(x.s.(view := x.s.view.(presented := true, deactivationDeadline := None, effectivePresented := true)), x.acts);
    KeepsIsCalm(x, y);
    if !x.s.view.effectivePresented {
      var before := y.s.settings.demand.Demanded(false, y.s.view.selectedPage);
      ActivateIsCalm(y, before, CurrentDemand(y.s), true);
      CalmChain(x, y, Step(ActivateJobs(y.s, before, CurrentDemand(y.s), true), x.acts));
    }
  }

  lemma ChangePresentationIsCalm(x: Step, presented: bool)
    requires Occupancy(x.s.runs)
    ensures Calm(x, ChangePresentation(x, presented)) && Occupancy(ChangePresentation(x, presented).s.runs)
  {
    hide Occupancy, Calm, PaintOk, FeedOk, ShowTooltip, RefreshActivation;
    if !presented {
      KeepsIsCalm(x, ChangePresentation(x, presented));
    } else {
      var y := Step(ShowTooltip(x.s), x.acts);
      ShowIsCalm(x);
      if !x.s.view.presented {
        RefreshActivationIsCalm(y);
        CalmChain(x, y, RefreshActivation(y));
      }
    }
  }

  // ----- the new job tables

  lemma ResetIsSound(x: Step, config: SchedulerConfig)
    ensures Sound(x) ==> Sound(Step(Reset(x.s, config), x.acts))
  {
  }

  /** After a reload the scheduler starts again from the new settings with nothing in flight. */
  lemma ReconfigureIsCalm(x: Step, config: SchedulerConfig)
    requires Occupancy(x.s.runs)
    ensures var y := Reconfigure(x, config);
      Calm(Step(Reset(x.s, config), x.acts), y) && Grounded(y.s.runs) && Occupancy(y.s.runs)
  {
    hide Occupancy, Calm, Sound, ReplaceJobs, RefreshDemand, IssuePublish, ReanchorFastJobs, MarkJobs, DiscoveryJobs, Grounded, Reset;
    var x1 := Step(Reset(x.s, config), x.acts);
    assert Occupancy(x1.s.runs) by { ResetKeepsRuns(x.s, config); }
    var x2 := ReplaceJobs(x1, config.jobs, ConfigReplaced);
    var x3 := Step(ReanchorFastJobs(x2.s), x2.acts);
    var x4 := RefreshDemand(x3, false);
    var x5 := Step(MarkJobs(x4.s, DiscoveryJobs(x4.s)), x4.acts);
    ReplaceJobsIsCalm(x1, config.jobs, ConfigReplaced);
    CalmFacts(x1, x2);
    ReanchorIsCalm(x2);
    CalmChain(x1, x2, x3);
    CalmFacts(x2, x3);
    RefreshDemandIsCalm(x3, false);
    CalmChain(x1, x3, x4);
    CalmFacts(x3, x4);
    MarkJobsIsCalm(x4, DiscoveryJobs(x4.s));
    CalmChain(x1, x4, x5);
    CalmFacts(x4, x5);
    if x5.s.paint.firstPaintIssued {
      var x6 := IssuePublish(x5, ConfigReload, None, 0, true, x5.s.view.effectivePresented);
      PublishIsCalm(x5, ConfigReload, None, 0, true, x5.s.view.effectivePresented);
      CalmChain(x1, x5, x6);
      CalmFacts(x5, x6);
    }
  }

  lemma ResetKeepsRuns(s: State, config: SchedulerConfig)
    ensures Reset(s, config).runs == s.runs
  {
  }

  /** The state once an inventory's generation and demand are recorded and, if it answers the
      resume, the resume is over. */
  function Inventoried(s: State, update: InventoryUpdate): State {
    s.(settings := s.settings.(inventoryGeneration := update.generation, demand := update.demand),
       handshake := if Acknowledges(s, update) then s.handshake.(awaiting := None) else s.handshake)
  }

  lemma ChangeInventoryIsCalm(x: Step, update: InventoryUpdate)
    requires Occupancy(x.s.runs)
    ensures var y := ChangeInventory(x, update);
      Calm(Step(Inventoried(x.s, update), x.acts), y) && Grounded(y.s.runs) && Occupancy(y.s.runs)
  {
    hide Occupancy, Calm, Sound, ReplaceJobs, RefreshDemand, ActivateJobs, RefreshAllDemanded, Grounded, CurrentDemand;
    var resumes := Acknowledges(x.s, update);
    var before := CurrentDemand(x.s);
    var x1 := Step(x.s.(settings := x.s.settings.(inventoryGeneration := update.generation, demand := update.demand)), x.acts);
    var x2 := ReplaceJobs(x1, update.jobs, SourceReplaced);
    ReplaceJobsIsCalm(x1, update.jobs, SourceReplaced);
    CalmFacts(x1, x2);
    var x0 := Step(Inventoried(x.s, update), x.acts);
    var x3 := Step(if resumes then x2.s.(handshake := x2.s.handshake.(awaiting := None)) else x2.s, x2.acts);
    HandshakeFrame(x1, x2, x0, x3);
    var x4 := Step(ActivateJobs(x3.s, before, CurrentDemand(x3.s), x3.s.view.effectivePresented), x2.acts);
    ActivateIsCalm(x3, before, CurrentDemand(x3.s), x3.s.view.effectivePresented);
    CalmChain(x0, x3, x4);
    CalmFacts(x3, x4);
    var x5 := RefreshDemand(x4, false);
    RefreshDemandIsCalm(x4, false);
    CalmChain(x0, x4, x5);
    CalmFacts(x4, x5);
    if resumes {
      var x6 := Step(RefreshAllDemanded(x5.s), x5.acts);
      RefreshAllIsCalm(x5);
      CalmChain(x0, x5, x6);
      CalmFacts(x5, x6);
    }
  }

  /** Ending the handshake on both sides changes nothing else. */
  lemma HandshakeFrame(x: Step, y: Step, x': Step, y': Step)
    requires Calm(x, y)
    requires x'.s == x.s.(handshake := x'.s.handshake) && y'.s == y.s.(handshake := y'.s.handshake)
    requires x'.s.handshake == y'.s.handshake
    requires x'.acts == x.acts && y'.acts == y.acts
    ensures Calm(x', y') && Occupancy(y'.s.runs) && (Grounded(y.s.runs) ==> Grounded(y'.s.runs))
  {
    hide Occupancy, Steady, Grounded;
  }
}
