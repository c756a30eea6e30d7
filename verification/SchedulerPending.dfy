/** Which jobs an event leaves pending, and that a pending job that may run is served: unless its retry is still
    ahead, its owner is occupied once the event has been handled (src/scheduler/machine.rs and its demand
    submodule). */
module SchedulerPending {
  import opened Wrappers
  import opened SchedulerPolicy
  import opened SchedulerModel
  import opened SchedulerSpec
  import opened SchedulerSafety
  import opened SchedulerSteps
  import opened SchedulerInvariant
  import opened SchedulerDispatch
  import opened SchedulerRuns
  import opened SchedulerResults
  import opened SchedulerSources
  import opened SchedulerTiming
  import opened SchedulerClock

  /** The plan wants the job: always, or with the tooltip in effect, or on the page that shows. */
  predicate Wanted(s: State, id: JobId) {
    var plan, view := s.settings.demand, s.view;
    id in plan.hidden
    || (view.effectivePresented
        && (id in plan.mainTooltip || (view.selectedPage in plan.pages && id in plan.pages[view.selectedPage])))
  }

  lemma DemandIsWanted(s: State, id: JobId)
    ensures id in CurrentDemand(s) <==> Wanted(s, id)
  {
  }

  // ----- what the time marks

  /** The job is pending once the time up to `at` has been processed. */
  predicate PendingThen(s: State, at: Time, id: JobId)
    requires id in s.runs.jobs
  {
    var rt, demanded := s.runs.jobs[id], id in DemandAt(s, at);
    || (rt.pendingSince.Some? && (GraceEnds(s, at) ==> demanded))
    || (demanded && GraceEnds(s, at) && rt.spec.timing != History && rt.inFlight.None? && !rt.hasSample)
    || (demanded && Due(rt.retryDue, at))
    || (demanded && Due(TimerAnchor(s.(now := at), id), at) && (rt.spec.timing == History ==> HistoryReady(rt.spec, s.runs.jobs)))
  }

  function RetryThen(s: State, at: Time, id: JobId): Option<Time>
    requires id in s.runs.jobs
  {
    var rt, demanded := s.runs.jobs[id], id in DemandAt(s, at);
    if demanded then (if Due(rt.retryDue, at) then None else rt.retryDue)
    else if GraceEnds(s, at) then None else rt.retryDue
  }

  /** What `rt` keeps of `was` as far as starting it goes. */
  predicate SameStart(was: JobRuntime, rt: JobRuntime) {
    rt.spec == was.spec && rt.hasSample == was.hasSample && rt.pendingSince.Some? == was.pendingSince.Some? && rt.retryDue == was.retryDue
  }

  lemma GraceMarks(x: Step, id: JobId)
    requires id in x.s.runs.jobs
    ensures var y := ExpireDeactivation(x).s; var demanded, ends := id in DemandAt(x.s, x.s.now), GraceEnds(x.s, x.s.now);
      && y.runs.jobs.Keys == x.s.runs.jobs.Keys
      && var was, rt := x.s.runs.jobs[id], y.runs.jobs[id];
      && (rt.pendingSince.Some? <==>
            (was.pendingSince.Some? && (ends ==> demanded))
            || (demanded && ends && was.spec.timing != History && was.inFlight.None? && !was.hasSample))
      && rt.retryDue == if ends && !demanded then None else was.retryDue
  {
    hide Moved, AddTickets, CancelActions, DemandPlan.Demanded, Landed, DemandRefreshed, PageWork;
    var demanded := DemandAt(x.s, x.s.now);
    RefreshedMark(x.s.runs.jobs, demanded, PageWork(x.s.runs.jobs.Keys - demanded), x.s.now, id);
  }

  lemma RefreshedMark(jobs: JobTable, demanded: set<JobId>, ended: set<JobId>, now: Time, id: JobId)
    requires id in jobs
    ensures var after := Landed(DemandRefreshed(jobs, demanded, now), ended); var was := jobs[id];
      && after.Keys == jobs.Keys
      && (after[id].pendingSince.Some? <==>
            id in demanded && (was.pendingSince.Some? || (was.spec.timing != History && was.inFlight.None? && !was.hasSample)))
      && after[id].retryDue == if id in demanded then was.retryDue else None
  {
  }

  lemma FirstPaintMarks(x: Step, why: PublishReason)
    ensures var y := IssueFirstPaint(x, why).s;
      && y.runs.jobs.Keys == x.s.runs.jobs.Keys
      && forall id :: id in x.s.runs.jobs ==> SameStart(x.s.runs.jobs[id], y.runs.jobs[id])
  {
    hide Publish, AdvancePast, FirstPaintSkips;
  }

  lemma TimedMarks(rt: JobRuntime, ready: bool, now: Time)
    ensures var r := TimedRuntime(rt, ready, now);
      && (r.pendingSince.Some? <==>
            rt.pendingSince.Some? || Due(rt.retryDue, now) || (Due(rt.nominalDue, now) && (rt.spec.timing == History ==> ready)))
      && r.retryDue == (if Due(rt.retryDue, now) then None else rt.retryDue)
      && r.spec == rt.spec && r.hasSample == rt.hasSample
  {
    hide AdvancePast, LatestDueAtOrBefore;
  }

  lemma MarksAfterTimers(x: Step, id: JobId)
    requires id in x.s.runs.jobs
    ensures var y := ExpireTimers(x).s; var demanded, ends := id in DemandAt(x.s, x.s.now), GraceEnds(x.s, x.s.now);
      && id in y.runs.jobs
      && var was, rt := x.s.runs.jobs[id], y.runs.jobs[id];
      && (rt.pendingSince.Some? <==>
            (was.pendingSince.Some? && (ends ==> demanded))
            || (demanded && ends && was.spec.timing != History && was.inFlight.None? && !was.hasSample))
      && rt.retryDue == if ends && !demanded then None else was.retryDue
  {
    hide ExpireDeactivation, IssueFirstPaint, ExpireActivation, DisplayTick, GraceEnds, DemandAt;
    var a := ExpireDeactivation(x);
    var b := ExpireFirstPaint(a);
    GraceMarks(x, id);
    FirstPaintMarks(a, FirstPaintTimeout);
    LaterTimersKeepJobs(b);
  }

  /** Once the time has been processed, a job is pending exactly when it was and still may be, when the ending
      grace period left it demanded without a sample, or when, demanded, its retry or its deadline was due, the
      deadline of a history also needing its source's sample. Its retry is then ahead or none. */
  lemma PendingThenIff(s: State, at: Time, id: JobId)
    requires PaintOk(s.paint) && s.lifecycle == Running && id in s.runs.jobs
    ensures var after := TimeFirst(s.(now := at)).s;
      && after.now == at && after.runs.jobs.Keys == s.runs.jobs.Keys && CurrentDemand(after) == DemandAt(s, at)
      && after.runs.jobs[id].spec == s.runs.jobs[id].spec
      && (after.runs.jobs[id].pendingSince.Some? <==> PendingThen(s, at, id))
      && after.runs.jobs[id].retryDue == RetryThen(s, at, id)
      && (HistoryReady(s.runs.jobs[id].spec, after.runs.jobs) <==> HistoryReady(s.runs.jobs[id].spec, s.runs.jobs))
  {
    hide ExpireTimers, TimedRuntime, DemandPlan.Demanded, HistoryReady, TimerAnchor, PaintOk;
    var x := Step(s.(now := at), []);
    var d := ExpireTimers(x).s;
    PendingAfterTimers(x, id);
    MarksAfterTimers(x, id);
    TimersKeepAnchor(x, id);
    var rt := d.runs.jobs[id];
    TimedMarks(rt, HistoryReady(rt.spec, d.runs.jobs), at);
    TimedReady(d, rt.spec);
    assert TimerAnchor(x.s, id) == TimerAnchor(s.(now := at), id);
  }

  lemma TimedReady(s: State, spec: JobSpec)
    ensures HistoryReady(spec, TimeJobs(s).runs.jobs) <==> HistoryReady(spec, s.runs.jobs)
    ensures CurrentDemand(TimeJobs(s)) == CurrentDemand(s)
  {
    hide TimedRuntime, DemandPlan.Demanded;
    forall id | id in s.runs.jobs
      ensures TimeJobs(s).runs.jobs[id].hasSample == s.runs.jobs[id].hasSample
    {
      TimedMarks(s.runs.jobs[id], HistoryReady(s.runs.jobs[id].spec, s.runs.jobs), s.now);
    }
  }

  /** `w` is the last point of the grid from `anchor` on that is not later than `now`. */
  ghost predicate LastPoint(anchor: Time, cadence: Duration, now: Time, w: Time) {
    w <= now && OnGrid(anchor, cadence, w) && forall t: Time :: OnGrid(anchor, cadence, t) && t <= now ==> t <= w
  }

  lemma TimedHistory(rt: JobRuntime, ready: bool, now: Time)
    requires rt.spec.timing == History && rt.spec.freshness > 0
    ensures var r := TimedRuntime(rt, ready, now);
      if Due(rt.nominalDue, now) && ready
      then r.pendingHistoryDeadline.Some? && LastPoint(rt.nominalDue.value, rt.spec.freshness, now, r.pendingHistoryDeadline.value)
      else r.pendingHistoryDeadline == rt.pendingHistoryDeadline
  {
    hide AdvancePast, LatestDueAtOrBefore, OnGrid;
    if Due(rt.nominalDue, now) { LatestDueIsLastGridPoint(rt.nominalDue.value, rt.spec.freshness, now); }
  }

  /** A history that is due and whose source has a sample is to be drawn for the last of its deadlines that have
      passed; any other keeps the deadline it was to be drawn for, unless its demand ended with the grace period. */
  lemma HistoryIsLatest(s: State, at: Time, id: JobId)
    requires PaintOk(s.paint) && s.lifecycle == Running && id in s.runs.jobs
    requires s.runs.jobs[id].spec.timing == History && s.runs.jobs[id].spec.freshness > 0
    ensures var after, was := TimeFirst(s.(now := at)).s.runs.jobs, s.runs.jobs[id]; var demanded := id in DemandAt(s, at);
      && id in after
      && if demanded && Due(was.nominalDue, at) && HistoryReady(was.spec, s.runs.jobs)
         then after[id].pendingHistoryDeadline.Some?
              && LastPoint(was.nominalDue.value, was.spec.freshness, at, after[id].pendingHistoryDeadline.value)
         else after[id].pendingHistoryDeadline == if GraceEnds(s, at) && !demanded then None else was.pendingHistoryDeadline
  {
    hide ExpireTimers, TimedRuntime, DemandPlan.Demanded, HistoryReady, PaintOk, LastPoint;
    var x := Step(s.(now := at), []);
    var d := ExpireTimers(x).s;
    PendingAfterTimers(x, id);
    var rt := d.runs.jobs[id];
    TimedHistory(rt, HistoryReady(rt.spec, d.runs.jobs), at);
  }

  // ----- a pending job is served

  /** Nothing but an occupied owner keeps the job from starting at the time of `s`. */
  predicate Ripe(s: State, id: JobId)
    requires id in s.runs.jobs
  {
    var rt := s.runs.jobs[id];
    Wanted(s, id) && rt.pendingSince.Some? && !RetryAhead(rt.retryDue, s.now)
    && (rt.spec.timing == History ==> HistoryReady(rt.spec, s.runs.jobs))
  }

  predicate RetryAhead(retry: Option<Time>, now: Time) {
    retry.Some? && retry.value > now
  }

  lemma RipeIsStartable(s: State, id: JobId)
    requires id in s.runs.jobs && Ripe(s, id) && s.runs.jobs[id].inFlight.None?
    ensures Startable(s, id)
  {
    hide HistoryReady, Wanted;
    DemandIsWanted(s, id);
  }

  lemma FlyingIsOutstanding(r: Runs, id: JobId)
    requires Occupancy(r) && id in r.jobs && r.jobs[id].inFlight.Some?
    ensures var t := r.jobs[id].inFlight.value; t.job == id && Flying(r, t)
  {
  }

  lemma FlyingHolds(r: Runs, t: JobTicket)
    requires Occupancy(r) && Flying(r, t)
    ensures t.job.owner in r.inFlightOwners
  {
    assert Outstanding(r, t);
    assert Registered(r, t);
  }

  lemma DispatchServes(x: Step, id: JobId)
    requires Occupancy(x.s.runs) && (forall a :: a in x.acts ==> !a.StartJob?)
    requires x.s.lifecycle == Running && x.s.handshake.awaiting.None? && id in x.s.runs.jobs
    requires Ripe(x.s, id) || x.s.runs.jobs[id].inFlight.Some?
    ensures id.owner in Dispatch(x).s.runs.inFlightOwners
  {
    hide Occupancy, Dispatch, Ripe, Flying, Startable;
    DispatchStartsTheBest(x);
    if x.s.runs.jobs[id].inFlight.Some? {
      FlyingIsOutstanding(x.s.runs, id);
      FlyingHolds(Dispatch(x).s.runs, x.s.runs.jobs[id].inFlight.value);
    } else {
      RipeIsStartable(x.s, id);
    }
  }

  lemma ArmStartsNothing(s: State, x: Step, gone: Option<JobTicket>)
    requires ArmOk(s, x, gone)
    ensures Occupancy(x.s.runs) && forall a :: a in x.acts ==> !a.StartJob?
  {
  }

  /** A job that is ripe or running when the event's own effect is done has its owner occupied when the event is handled. */
  lemma RipeIsServed(s: State, e: SchedulerEvent, id: JobId)
    requires Inv(s) && EarlyRejection(s, e).None? && Apply(s.(now := e.at), e).1 == Accepted
    requires var x := Apply(s.(now := e.at), e).0;
      && x.s.lifecycle == Running && x.s.handshake.awaiting.None? && id in x.s.runs.jobs
      && (Ripe(x.s, id) || x.s.runs.jobs[id].inFlight.Some?)
    ensures id.owner in Handle(s, e).s.runs.inFlightOwners
  {
    hide Inv, Apply, ArmOk, Occupancy, Dispatch, Ripe, NextWake, SortActions, EarlyRejection;
    var x := Apply(s.(now := e.at), e).0;
    ApplyFollows(s, e);
    ArmStartsNothing(s.(now := e.at), x, Closed(e, Accepted));
    DispatchServes(x, id);
  }

  /** The job, which the event leaves in place, waits for nothing but its owner when the time has been processed. */
  predicate DueThen(s: State, e: SchedulerEvent, id: JobId) {
    && id in s.runs.jobs && id in DemandAt(s, e.at)
    && (PendingThen(s, e.at, id) || (e == RefreshTriggered(e.at, id) && s.runs.jobs[id].spec.timing != History))
    && !RetryAhead(s.runs.jobs[id].retryDue, e.at)
    && (s.runs.jobs[id].spec.timing == History ==> HistoryReady(s.runs.jobs[id].spec, s.runs.jobs))
  }

  /** The result is recorded in the job itself, or is an absence, which the histories and the jobs drawn from it
      may not outlive. */
  predicate Consumes(s: State, e: SchedulerEvent, id: JobId)
    requires id in s.runs.jobs
  {
    e.JobFinished? && !Cancelling(s.runs, e.ticket)
    && (id == e.ticket.job
        || (e.completion == ConfirmedAbsent
            && (s.runs.jobs[id].spec.timing == History || s.runs.jobs[id].spec.historySource == Some(e.ticket.job))))
  }

  lemma TimeLeavesRipe(s: State, e: SchedulerEvent, id: JobId)
    requires PaintOk(s.paint) && s.lifecycle == Running && DueThen(s, e, id) && PendingThen(s, e.at, id)
    ensures var x := TimeFirst(s.(now := e.at)).s; x.now == e.at && id in x.runs.jobs && Ripe(x, id)
  {
    hide TimeFirst, PaintOk, PendingThen, HistoryReady, Wanted;
    PendingThenIff(s, e.at, id);
    DemandIsWanted(TimeFirst(s.(now := e.at)).s, id);
  }

  lemma SameStartIsRipe(a: State, b: State, id: JobId)
    requires id in a.runs.jobs && Ripe(a, id) && id in b.runs.jobs && a.now == b.now
    requires a.settings == b.settings && a.view.effectivePresented == b.view.effectivePresented
    requires a.view.selectedPage == b.view.selectedPage
    requires var was, rt := a.runs.jobs[id], b.runs.jobs[id];
      rt.spec == was.spec && rt.pendingSince.Some? == was.pendingSince.Some? && rt.retryDue == was.retryDue
    requires a.runs.jobs[id].spec.timing == History ==>
      (HistoryReady(a.runs.jobs[id].spec, a.runs.jobs) ==> HistoryReady(a.runs.jobs[id].spec, b.runs.jobs))
    ensures Ripe(b, id)
  {
  }

  /** Landing a run touches no other job, but for an absence. */
  lemma LandLeavesStart(s: State, t: JobTicket, completion: CompletionKind, id: JobId)
    requires t.job in s.runs.jobs && id in s.runs.jobs && id != t.job
    requires completion == ConfirmedAbsent ==>
               s.runs.jobs[id].spec.timing != History && s.runs.jobs[id].spec.historySource != Some(t.job)
    ensures var jobs := CompletedJobs(s.runs.jobs, t, completion, s.now);
      && jobs.Keys == s.runs.jobs.Keys
      && SameStart(s.runs.jobs[id], jobs[id])
      && (s.runs.jobs[id].spec.timing == History ==>
            (HistoryReady(s.runs.jobs[id].spec, s.runs.jobs) ==> HistoryReady(s.runs.jobs[id].spec, jobs)))
  {
    hide RetryDelay, FailedOnce;
  }

  lemma FinishLeavesRipe(x: Step, t: JobTicket, completion: CompletionKind, ready: bool, id: JobId)
    requires Finishes(x.s, t) && id in x.s.runs.jobs && Ripe(x.s, id) && id != t.job
    requires completion == ConfirmedAbsent ==>
               x.s.runs.jobs[id].spec.timing != History && x.s.runs.jobs[id].spec.historySource != Some(t.job)
    ensures var y := FinishJob(x, t, completion, ready).s;
      && y.lifecycle == x.s.lifecycle && y.handshake == x.s.handshake && id in y.runs.jobs && Ripe(y, id)
  {
    hide LandRun, CompletionActions, PaintWhenReady, RefreshWhenReady, Ripe;
    LandLeavesRipe(x.s, t, completion, id);
    var landed := Step(LandRun(x.s, t, completion), x.acts + CompletionActions(x.s, t, completion, ready));
    PaintLeavesRipe(landed, id);
    RefreshLeavesRipe(PaintWhenReady(landed), id);
  }

  lemma LandLeavesRipe(s: State, t: JobTicket, completion: CompletionKind, id: JobId)
    requires t.job in s.runs.jobs && id in s.runs.jobs && Ripe(s, id) && id != t.job
    requires completion == ConfirmedAbsent ==>
               s.runs.jobs[id].spec.timing != History && s.runs.jobs[id].spec.historySource != Some(t.job)
    ensures var y := LandRun(s, t, completion);
      y.lifecycle == s.lifecycle && y.handshake == s.handshake && id in y.runs.jobs && Ripe(y, id)
  {
    hide CompletedJobs, HistoryReady, Ripe;
    LandLeavesStart(s, t, completion, id);
    SameStartIsRipe(s, LandRun(s, t, completion), id);
  }

  lemma PaintLeavesRipe(x: Step, id: JobId)
    requires id in x.s.runs.jobs && Ripe(x.s, id)
    ensures var y := PaintWhenReady(x).s;
      y.lifecycle == x.s.lifecycle && y.handshake == x.s.handshake && id in y.runs.jobs && Ripe(y, id)
  {
    hide IssueFirstPaint, HistoryReady, Ripe;
    FirstPaintMarks(x, FirstPaintReady);
    FirstPaintFrame(x, FirstPaintReady);
    var y := IssueFirstPaint(x, FirstPaintReady).s;
    SamplesDecide(x.s.runs.jobs, y.runs.jobs, x.s.runs.jobs[id].spec);
    SameStartIsRipe(x.s, y, id);
  }

  lemma RefreshLeavesRipe(x: Step, id: JobId)
    requires id in x.s.runs.jobs && Ripe(x.s, id)
    ensures var y := RefreshWhenReady(x).s;
      y.lifecycle == x.s.lifecycle && y.handshake == x.s.handshake && id in y.runs.jobs && Ripe(y, id)
  {
    hide Publish, HistoryReady, Ripe;
    SameStartIsRipe(x.s, RefreshWhenReady(x).s, id);
  }

  lemma FirstPaintFrame(x: Step, why: PublishReason)
    ensures var y := IssueFirstPaint(x, why).s;
      && y.now == x.s.now && y.settings == x.s.settings && y.view == x.s.view && y.lifecycle == x.s.lifecycle && y.handshake == x.s.handshake
  {
    hide Publish, AdvancePast, FirstPaintSkips, Reanchored;
  }

  lemma SamplesDecide(a: JobTable, b: JobTable, spec: JobSpec)
    requires a.Keys == b.Keys && forall id :: id in a ==> a[id].hasSample == b[id].hasSample
    ensures HistoryReady(spec, a) <==> HistoryReady(spec, b)
  {
  }

  lemma TriggerRipens(s: State, job: JobId, id: JobId)
    requires id in s.runs.jobs && Wanted(s, id) && !RetryAhead(s.runs.jobs[id].retryDue, s.now)
    requires s.runs.jobs[id].spec.timing == History ==> HistoryReady(s.runs.jobs[id].spec, s.runs.jobs)
    requires s.runs.jobs[id].pendingSince.Some? || (id == job && s.runs.jobs[id].spec.timing != History)
    ensures var y := Trigger(s, job);
      && y.lifecycle == s.lifecycle && y.handshake == s.handshake && id in y.runs.jobs && Ripe(y, id)
  {
    hide DemandPlan.Demanded, Wanted;
    DemandIsWanted(s, id);
    DemandIsWanted(Trigger(s, job), id);
    SamplesDecide(s.runs.jobs, Trigger(s, job).runs.jobs, s.runs.jobs[id].spec);
  }

  lemma TimeKeepsRest(s: State)
    requires Occupancy(s.runs)
    ensures TimeFirst(s).s.lifecycle == s.lifecycle && TimeFirst(s).s.handshake == s.handshake
  {
    hide ProcessTime, Occupancy;
    ProcessTimeIsCalm(Step(s, []));
  }

  /** The arm of an event that processes the time leaves a due job ripe. */
  lemma TickArmLeavesRipe(s: State, e: SchedulerEvent, id: JobId)
    requires Occupancy(s.runs) && PaintOk(s.paint) && s.lifecycle == Running && s.handshake.awaiting.None?
    requires Ticks(e) && Apply(s.(now := e.at), e).1 == Accepted && DueThen(s, e, id) && !Consumes(s, e, id)
    ensures var x := Apply(s.(now := e.at), e).0.s;
      x.lifecycle == Running && x.handshake.awaiting.None? && id in x.runs.jobs && Ripe(x, id)
  {
    hide Occupancy, PaintOk, TimeFirst, FinishJob, Trigger, FinishCancellation, PendingThen, HistoryReady, Wanted, DemandAt, RetryThen;
    var s' := s.(now := e.at);
    var x := TimeFirst(s');
    TimeKeepsRest(s');
    PendingThenIff(s, e.at, id);
    if e.RefreshTriggered? {
      DemandIsWanted(x.s, id);
      RetryIsNot(s, e.at, id);
      TriggerRipens(x.s, e.job, id);
    } else {
      TimeLeavesRipe(s, e, id);
      if e.JobFinished? && !Cancelling(s.runs, e.ticket) {
        FinishLeavesRipe(x, e.ticket, e.completion, e.notificationReady, id);
      } else if !e.TimeAdvanced? {
        ReleaseLeavesRipe(x.s, e.ticket, id);
      }
    }
  }

  lemma RetryIsNot(s: State, at: Time, id: JobId)
    requires id in s.runs.jobs && !RetryAhead(s.runs.jobs[id].retryDue, at)
    ensures !RetryAhead(RetryThen(s, at, id), at)
  {
  }

  lemma ReleaseLeavesRipe(s: State, t: JobTicket, id: JobId)
    requires id in s.runs.jobs && Ripe(s, id)
    ensures var y := FinishCancellation(s, t);
      y.lifecycle == s.lifecycle && y.handshake == s.handshake && id in y.runs.jobs && Ripe(y, id)
  {
    SameStartIsRipe(s, FinishCancellation(s, t), id);
  }

  /** Sampling does not stop: when a running scheduler that awaits no inventory accepts an event that processes the
      time, the owner of every demanded job whose deadline or retry was due, that was pending, or that the event
      asks for is occupied afterwards, unless the job's retry is still ahead, its source has no sample or the event
      is the job's own result. */
  lemma DueJobIsServed(s: State, e: SchedulerEvent, id: JobId)
    requires Inv(s) && s.lifecycle == Running && s.handshake.awaiting.None?
    requires Ticks(e) && Handle(s, e).disposition == Accepted && DueThen(s, e, id) && !Consumes(s, e, id)
    ensures id.owner in Handle(s, e).s.runs.inFlightOwners
  {
    hide Inv, Apply, Settle, Occupancy, PaintOk, DueThen, Consumes, Ripe, EarlyRejection, SortActions;
    AcceptedIsNotEarly(s, e);
    assert Occupancy(s.runs) by { InvRuns(s); }
    InvPaint(s);
    TickArmLeavesRipe(s, e, id);
    RipeIsServed(s, e, id);
  }

  lemma InvRuns(s: State)
    requires Inv(s) && s.lifecycle == Running
    ensures Occupancy(s.runs)
  {
  }

  // ----- what a change of demand marks

  /** Events that replace no job table, process no time and leave a running scheduler running. */
  predicate Views(e: SchedulerEvent) {
    e.DemandChanged? || e.TooltipPresented? || e.TooltipReactivated? || e.SelectedPageChanged?
    || e.DisplayRefreshRequested? || e.TooltipRefreshRequested? || e.PanelPublished? || e.Resume?
  }

  /** The state with the plan, page and presentation that the event brings. */
  function Viewed(s: State, e: SchedulerEvent): State {
    match e
    case DemandChanged(_, demand) => s.(settings := s.settings.(demand := demand))
    case SelectedPageChanged(_, page) => s.(view := s.view.(selectedPage := page))
    case TooltipPresented(_, presented) =>
      (if presented then s.(view := s.view.(effectivePresented := true)) else s)
    case _ => s
  }

  /** The event makes the plan want a job that takes samples of its own. */
  predicate NewlyWanted(s: State, e: SchedulerEvent, id: JobId)
    requires id in s.runs.jobs
  {
    s.runs.jobs[id].spec.timing != History && Wanted(Viewed(s, e), id) && !Wanted(s, id)
  }

  /** The job is pending when the event's own effect is done. */
  predicate PendingBy(s: State, e: SchedulerEvent, id: JobId)
    requires id in s.runs.jobs
  {
    var rt, wanted := s.runs.jobs[id], Wanted(Viewed(s, e), id);
    match e
    case DemandChanged(_, _) =>
      wanted && (rt.pendingSince.Some? || NewlyWanted(s, e, id)
                 || (rt.spec.timing != History && rt.inFlight.None? && !rt.hasSample))
    case SelectedPageChanged(_, _) =>
      (rt.pendingSince.Some? && !(Wanted(s, id) && !wanted && IsCancelledPageWork(id))) || NewlyWanted(s, e, id)
    case TooltipPresented(_, presented) =>
      rt.pendingSince.Some? || NewlyWanted(s, e, id) || (presented && !s.view.presented && WantsTooltipRefresh(rt.spec))
    case TooltipReactivated(_) => rt.pendingSince.Some? || (s.view.presented && WantsTooltipRefresh(rt.spec))
    case _ => rt.pendingSince.Some?
  }

  /** `b` is at the same time, in the same phase, with the jobs of `a`. */
  predicate SamePhase(a: State, b: State) {
    b.now == a.now && b.lifecycle == a.lifecycle && b.handshake == a.handshake && b.runs.jobs.Keys == a.runs.jobs.Keys
  }

  /** The same plan, page and presentation. */
  predicate SameWants(a: State, b: State) {
    && a.settings.demand == b.settings.demand && a.view.selectedPage == b.view.selectedPage
    && a.view.effectivePresented == b.view.effectivePresented
  }

  /** The event leaves the job as `rt`: pending as foretold, with its sample, and with its retry if it is wanted. */
  predicate MarkedAs(s: State, e: SchedulerEvent, id: JobId, rt: JobRuntime)
    requires id in s.runs.jobs
  {
    && rt.spec == s.runs.jobs[id].spec && rt.hasSample == s.runs.jobs[id].hasSample
    && (Wanted(Viewed(s, e), id) ==> rt.retryDue == s.runs.jobs[id].retryDue)
    && (rt.pendingSince.Some? <==> PendingBy(s, e, id))
  }

  predicate Marks(s: State, e: SchedulerEvent, y: State) {
    && SamePhase(s, y) && SameWants(Viewed(s, e), y)
    && forall id :: id in s.runs.jobs ==> MarkedAs(s, e, id, y.runs.jobs[id])
  }

  lemma EndedJobs(s: State, before: set<JobId>, after: set<JobId>)
    ensures var y := CancelDemandEnded(Step(s, []), before, after).s;
      && y == s.(runs := y.runs) && y.runs.jobs.Keys == s.runs.jobs.Keys
      && forall id :: id in s.runs.jobs ==>
           y.runs.jobs[id] == if id in before && id !in after && IsCancelledPageWork(id)
                              then Rested(s.runs.jobs[id]).(inFlight := None) else s.runs.jobs[id]
  {
    hide Moved, AddTickets, CancelActions;
  }

  lemma ActivatedJobs(s: State, before: set<JobId>, after: set<JobId>, track: bool)
    ensures var y := ActivateJobs(s, before, after, track);
      && y == s.(runs := y.runs, view := y.view) && y.runs.jobs.Keys == s.runs.jobs.Keys
      && y.view == s.view.(activationWaiting := y.view.activationWaiting, activationDeadline := y.view.activationDeadline)
      && forall id :: id in s.runs.jobs ==>
           y.runs.jobs[id] == if id in after && id !in before && s.runs.jobs[id].spec.timing != History
                              then s.runs.jobs[id].MarkPending(s.now) else s.runs.jobs[id]
  {
  }

  lemma BlockersLeaveJobs(x: Step)
    ensures var y := RebuildFirstPaintBlockers(x).s;
      && y.runs.jobs.Keys == x.s.runs.jobs.Keys
      && (forall id :: id in x.s.runs.jobs ==> SameStart(x.s.runs.jobs[id], y.runs.jobs[id]))
      && y.now == x.s.now && y.settings == x.s.settings && y.view == x.s.view && y.lifecycle == x.s.lifecycle && y.handshake == x.s.handshake
  {
    hide IssueFirstPaint, FirstPaintBlockers, CurrentDemand;
    if !x.s.paint.firstPaintIssued {
      var blocked := Step(x.s.(paint := x.s.paint.(firstPaintWaiting := FirstPaintBlockers(x.s.runs.jobs, CurrentDemand(x.s)))), x.acts);
      FirstPaintMarks(blocked, FirstPaintReady);
      FirstPaintFrame(blocked, FirstPaintReady);
    }
  }

  /** One job through the three passes of a new plan. */
  function Replanned(was: JobRuntime, page: bool, before: bool, after: bool, now: Time): JobRuntime {
    var r2 := if before && !after && page then Rested(was).(inFlight := None) else was;
    var r3 := if after && !before && was.spec.timing != History then r2.MarkPending(now) else r2;
    if !after then Rested(r3)
    else if r3.spec.timing != History && r3.inFlight.None? && !r3.hasSample then r3.MarkPending(now) else r3
  }

  lemma ReplannedMark(s: State, demand: DemandPlan, id: JobId)
    requires id in s.runs.jobs
    ensures var e := DemandChanged(s.now, demand);
      MarkedAs(s, e, id, Replanned(s.runs.jobs[id], IsCancelledPageWork(id), Wanted(s, id), Wanted(Viewed(s, e), id), s.now))
  {
    hide Wanted;
  }

  lemma ReplannedJobs(s: State, demand: DemandPlan)
    ensures var v := Viewed(s, DemandChanged(s.now, demand));
      var before, after := CurrentDemand(s), CurrentDemand(v);
      var s2 := CancelDemandEnded(Step(v, []), before, after).s;
      var s3 := ActivateJobs(s2, before, after, s2.view.effectivePresented);
      var y := RefreshDemand(Step(s3, CancelDemandEnded(Step(v, []), before, after).acts), false).s;
      && SamePhase(s, y) && SameWants(v, y)
      && forall id :: id in s.runs.jobs ==>
           y.runs.jobs[id] == Replanned(s.runs.jobs[id], IsCancelledPageWork(id), id in before, id in after, s.now)
  {
    hide CancelDemandEnded, ActivateJobs, CurrentDemand;
    var v := Viewed(s, DemandChanged(s.now, demand));
    var before, after := CurrentDemand(s), CurrentDemand(v);
    var s2 := CancelDemandEnded(Step(v, []), before, after).s;
    EndedJobs(v, before, after);
    var s3 := ActivateJobs(s2, before, after, s2.view.effectivePresented);
    ActivatedJobs(s2, before, after, s2.view.effectivePresented);
    SameDemand(v, s3);
  }

  lemma DemandMarks(s: State, demand: DemandPlan)
    ensures Marks(s, DemandChanged(s.now, demand), ChangeDemand(Step(s, []), demand).s)
  {
    hide CancelDemandEnded, ActivateJobs, RebuildFirstPaintBlockers, Wanted, CurrentDemand, RefreshDemand, MarkedAs, Replanned;
    var e := DemandChanged(s.now, demand);
    var v := Viewed(s, e);
    var before, after := CurrentDemand(s), CurrentDemand(v);
    var x2 := CancelDemandEnded(Step(v, []), before, after);
    var x4 := RefreshDemand(Step(ActivateJobs(x2.s, before, after, x2.s.view.effectivePresented), x2.acts), false);
    ReplannedJobs(s, demand);
    BlockersLeaveJobs(x4);
    forall id | id in s.runs.jobs
      ensures MarkedAs(s, e, id, RebuildFirstPaintBlockers(x4).s.runs.jobs[id])
    {
      DemandIsWanted(s, id);
      DemandIsWanted(v, id);
      ReplannedMark(s, demand, id);
      SameStartMarked(s, e, id, x4.s.runs.jobs[id], RebuildFirstPaintBlockers(x4).s.runs.jobs[id]);
    }
  }

  lemma SameStartMarked(s: State, e: SchedulerEvent, id: JobId, rt: JobRuntime, later: JobRuntime)
    requires id in s.runs.jobs && MarkedAs(s, e, id, rt) && SameStart(rt, later)
    ensures MarkedAs(s, e, id, later)
  {
    hide Wanted, PendingBy;
  }

  lemma SameDemand(a: State, b: State)
    requires a.settings == b.settings && a.view.effectivePresented == b.view.effectivePresented
    requires a.view.selectedPage == b.view.selectedPage
    ensures CurrentDemand(a) == CurrentDemand(b)
  {
  }

  lemma PageMark(s: State, page: PageId, id: JobId)
    requires id in s.runs.jobs
    ensures var e := SelectedPageChanged(s.now, page); var was := s.runs.jobs[id];
      var before, after := Wanted(s, id), Wanted(Viewed(s, e), id);
      var r2 := if before && !after && IsCancelledPageWork(id) then Rested(was).(inFlight := None) else was;
      && MarkedAs(s, e, id, if after && !before && was.spec.timing != History then r2.MarkPending(s.now) else r2)
      && (page == s.view.selectedPage || !s.view.effectivePresented ==> MarkedAs(s, e, id, was))
  {
    hide MarkedAs;
    var e := SelectedPageChanged(s.now, page);
    PageMarkMoved(s, page, id);
    assert page == s.view.selectedPage || !s.view.effectivePresented ==> (Wanted(s, id) <==> Wanted(Viewed(s, e), id));
  }

  lemma PageMarkMoved(s: State, page: PageId, id: JobId)
    requires id in s.runs.jobs
    ensures var e := SelectedPageChanged(s.now, page); var was := s.runs.jobs[id];
      var before, after := Wanted(s, id), Wanted(Viewed(s, e), id);
      var r2 := if before && !after && IsCancelledPageWork(id) then Rested(was).(inFlight := None) else was;
      MarkedAs(s, e, id, if after && !before && was.spec.timing != History then r2.MarkPending(s.now) else r2)
  {
    hide Wanted;
  }

  lemma PagedJobs(s: State, page: PageId)
    requires page != s.view.selectedPage && s.view.effectivePresented
    ensures var y, v := ChangePage(Step(s, []), page).s, Viewed(s, SelectedPageChanged(s.now, page));
      var before, after := CurrentDemand(s), CurrentDemand(v);
      && SamePhase(s, y) && SameWants(v, y)
      && forall id :: id in s.runs.jobs ==>
           var was := s.runs.jobs[id];
           var r2 := if id in before && id !in after && IsCancelledPageWork(id) then Rested(was).(inFlight := None) else was;
           y.runs.jobs[id] == if id in after && id !in before && was.spec.timing != History then r2.MarkPending(s.now) else r2
  {
    hide CancelDemandEnded, ActivateJobs, Publish, CurrentDemand;
    var v := Viewed(s, SelectedPageChanged(s.now, page));
    var before, after := CurrentDemand(s), CurrentDemand(v);
    EndedJobs(v, before, after);
    ActivatedJobs(CancelDemandEnded(Step(v, []), before, after).s, before, after, true);
  }

  lemma PageMarks(s: State, page: PageId)
    ensures Marks(s, SelectedPageChanged(s.now, page), ChangePage(Step(s, []), page).s)
  {
    hide Wanted, CurrentDemand, MarkedAs;
    var e, y := SelectedPageChanged(s.now, page), ChangePage(Step(s, []), page).s;
    var v := Viewed(s, e);
    var moved := page != s.view.selectedPage && s.view.effectivePresented;
    if moved { PagedJobs(s, page); } else { PageStays(s, page); }
    hide ChangePage;
    forall id | id in s.runs.jobs
      ensures MarkedAs(s, e, id, y.runs.jobs[id])
    {
      DemandIsWanted(s, id);
      DemandIsWanted(v, id);
      PageMark(s, page, id);
    }
  }

  lemma PageStays(s: State, page: PageId)
    requires page == s.view.selectedPage || !s.view.effectivePresented
    ensures var y := ChangePage(Step(s, []), page).s;
      y.runs == s.runs && SamePhase(s, y) && SameWants(Viewed(s, SelectedPageChanged(s.now, page)), y)
  {
    hide CancelDemandEnded, ActivateJobs, Publish, CurrentDemand;
  }

  lemma StaleJobs(x: Step)
    ensures var y := RefreshActivation(x).s;
      && y.runs.jobs.Keys == x.s.runs.jobs.Keys && y.now == x.s.now && y.lifecycle == x.s.lifecycle && y.handshake == x.s.handshake
      && y.settings == x.s.settings && y.view.selectedPage == x.s.view.selectedPage
      && y.view.effectivePresented == x.s.view.effectivePresented
      && forall id :: id in x.s.runs.jobs ==>
           y.runs.jobs[id] == if WantsTooltipRefresh(x.s.runs.jobs[id].spec)
                              then x.s.runs.jobs[id].MarkPending(x.s.now) else x.s.runs.jobs[id]
  {
    hide Publish;
  }

  lemma ShownJobs(s: State)
    ensures var y := ShowTooltip(s); var v := Viewed(s, TooltipPresented(s.now, true));
      && y.runs.jobs.Keys == s.runs.jobs.Keys && y.now == s.now && y.lifecycle == s.lifecycle && y.handshake == s.handshake
      && y.settings == s.settings && y.view.selectedPage == s.view.selectedPage && y.view.effectivePresented
      && forall id :: id in s.runs.jobs ==>
           y.runs.jobs[id] == if s.runs.jobs[id].spec.timing != History && Wanted(v, id) && !Wanted(s, id)
                              then s.runs.jobs[id].MarkPending(s.now) else s.runs.jobs[id]
  {
    hide ActivateJobs, DemandPlan.Demanded, Wanted;
    var v := Viewed(s, TooltipPresented(s.now, true));
    var s1 := s.(view := s.view.(presented := true, deactivationDeadline := None, effectivePresented := true));
    ActivatedJobs(s1, s1.settings.demand.Demanded(false, s1.view.selectedPage), CurrentDemand(s1), true);
    forall id | id in s.runs.jobs
      ensures id in CurrentDemand(s1) <==> Wanted(v, id)
      ensures id in CurrentDemand(s) <==> Wanted(s, id)
    {
      SameDemand(s1, v);
      DemandIsWanted(v, id);
      DemandIsWanted(s, id);
    }
  }

  lemma PresentationMark(s: State, presented: bool, id: JobId)
    requires id in s.runs.jobs
    ensures var e := TooltipPresented(s.now, presented); var was := s.runs.jobs[id];
      && (!presented ==> MarkedAs(s, e, id, was))
      && (presented ==>
            var r1 := if was.spec.timing != History && Wanted(Viewed(s, e), id) && !Wanted(s, id) then was.MarkPending(s.now) else was;
            MarkedAs(s, e, id, if !s.view.presented && WantsTooltipRefresh(was.spec) then r1.MarkPending(s.now) else r1))
  {
    hide Wanted, WantsTooltipRefresh;
  }

  lemma PresentedJobs(s: State)
    ensures var y, v := ChangePresentation(Step(s, []), true).s, Viewed(s, TooltipPresented(s.now, true));
      && SamePhase(s, y) && SameWants(v, y)
      && forall id :: id in s.runs.jobs ==>
           var was := s.runs.jobs[id];
           var r1 := if was.spec.timing != History && Wanted(v, id) && !Wanted(s, id) then was.MarkPending(s.now) else was;
           y.runs.jobs[id] == if !s.view.presented && WantsTooltipRefresh(was.spec) then r1.MarkPending(s.now) else r1
  {
    hide ShowTooltip, RefreshActivation, Wanted, WantsTooltipRefresh;
    ShownJobs(s);
    StaleJobs(Step(ShowTooltip(s), []));
  }

  lemma PresentationMarks(s: State, presented: bool)
    ensures Marks(s, TooltipPresented(s.now, presented), ChangePresentation(Step(s, []), presented).s)
  {
    hide ShowTooltip, RefreshActivation, Wanted, WantsTooltipRefresh, MarkedAs;
    if presented {
      hide ChangePresentation;
      PresentedJobs(s);
    }
    forall id | id in s.runs.jobs
      ensures MarkedAs(s, TooltipPresented(s.now, presented), id, ChangePresentation(Step(s, []), presented).s.runs.jobs[id])
    {
      PresentationMark(s, presented, id);
    }
  }

  lemma QuietMark(s: State, e: SchedulerEvent, id: JobId)
    requires id in s.runs.jobs && (e.DisplayRefreshRequested? || e.TooltipRefreshRequested? || e.PanelPublished? || e.Resume?)
    ensures MarkedAs(s, e, id, s.runs.jobs[id]) && Viewed(s, e) == s
  {
    hide Wanted;
  }

  lemma ReactivationMarks(s: State, e: SchedulerEvent)
    requires e.TooltipReactivated?
    ensures Marks(s, e, if s.view.presented then RefreshActivation(Step(s, [])).s else s)
  {
    hide Wanted, WantsTooltipRefresh, RefreshActivation;
    StaleJobs(Step(s, []));
  }

  /** An event that changes no more than what is wanted and shown leaves exactly these jobs pending: what was pending
      and has not lost its demand as page work, what it makes the plan want, what a new plan wants without having
      a sample, and when the tooltip comes up what its own metrics are read for. */
  lemma ViewPendingIff(s: State, e: SchedulerEvent)
    requires s.lifecycle == Running && e.at == s.now && Views(e)
    ensures Marks(s, e, Apply(s, e).0.s)
  {
    hide ChangeDemand, ChangePresentation, RefreshActivation, ChangePage, Publish, Marks;
    match e
    case DemandChanged(_, demand) => DemandMarks(s, demand);
    case TooltipPresented(_, presented) => PresentationMarks(s, presented);
    case SelectedPageChanged(_, page) => PageMarks(s, page);
    case TooltipReactivated(_) => ReactivationMarks(s, e);
    case _ => QuietMarks(s, e);
  }

  lemma QuietMarks(s: State, e: SchedulerEvent)
    requires s.lifecycle == Running
    requires e.DisplayRefreshRequested? || e.TooltipRefreshRequested? || e.PanelPublished? || e.Resume?
    ensures Marks(s, e, Apply(s, e).0.s)
  {
    hide Publish, MarkedAs;
    forall id | id in s.runs.jobs
      ensures MarkedAs(s, e, id, s.runs.jobs[id])
    {
      QuietMark(s, e, id);
    }
    assert Viewed(s, e) == s;
    assert Apply(s, e).0.s.runs == s.runs;
  }

  lemma ViewedNow(s: State, e: SchedulerEvent, id: JobId, now: Time)
    requires id in s.runs.jobs
    ensures PendingBy(s.(now := now), e, id) == PendingBy(s, e, id)
    ensures Wanted(Viewed(s.(now := now), e), id) == Wanted(Viewed(s, e), id)
  {
  }

  lemma MarkedIsRipe(s: State, e: SchedulerEvent, y: State, id: JobId)
    requires Marks(s, e, y) && id in s.runs.jobs && PendingBy(s, e, id) && Wanted(Viewed(s, e), id)
    requires !RetryAhead(s.runs.jobs[id].retryDue, s.now)
    requires s.runs.jobs[id].spec.timing == History ==> HistoryReady(s.runs.jobs[id].spec, s.runs.jobs)
    ensures id in y.runs.jobs && Ripe(y, id)
  {
    hide PendingBy, Viewed;
    SamplesDecide(s.runs.jobs, y.runs.jobs, s.runs.jobs[id].spec);
  }

  /** Every job that such an event leaves pending, and that is wanted, has its owner occupied once the event has been
      handled, unless its retry is ahead or its source has no sample. */
  lemma AskedJobIsServed(s: State, e: SchedulerEvent, id: JobId)
    requires Inv(s) && s.lifecycle == Running && s.handshake.awaiting.None?
    requires Views(e) && Handle(s, e).disposition == Accepted
    requires id in s.runs.jobs && PendingBy(s, e, id) && Wanted(Viewed(s, e), id) && !RetryAhead(s.runs.jobs[id].retryDue, e.at)
    requires s.runs.jobs[id].spec.timing == History ==> HistoryReady(s.runs.jobs[id].spec, s.runs.jobs)
    ensures id.owner in Handle(s, e).s.runs.inFlightOwners
  {
    hide Inv, Apply, Settle, Ripe, EarlyRejection, SortActions, PendingBy, Viewed, Wanted, HistoryReady, MarkedAs;
    AcceptedIsNotEarly(s, e);
    var s' := s.(now := e.at);
    ViewedNow(s, e, id, e.at);
    ViewPendingIff(s', e);
    MarkedIsRipe(s', e, Apply(s', e).0.s, id);
    RipeIsServed(s, e, id);
  }

  // ----- a new table

  /** The job has no sample, or the event asks for it all the same: a new configuration looks for hardware again,
      and an inventory that ends a resume reads everything anew. */
  predicate Called(s: State, e: SchedulerEvent, id: JobId, rt: JobRuntime) {
    !rt.hasSample || (e.ConfigChanged? && id.kind == HARDWARE_DISCOVERY) || (e.InventoryChanged? && Acknowledges(s, e.update))
  }

  /** The job is wanted and called, and so marked or running. */
  predicate CalledIn(s: State, e: SchedulerEvent, y: State) {
    forall id :: id in y.runs.jobs && Wanted(y, id) && y.runs.jobs[id].spec.timing != History && Called(s, e, id, y.runs.jobs[id]) ==>
      y.runs.jobs[id].inFlight.Some? || y.runs.jobs[id].pendingSince.Some?
  }

  lemma RefreshedIsCalled(x: Step)
    ensures var y := RefreshDemand(x, false).s;
      && y == x.s.(runs := y.runs) && y.runs.jobs.Keys == x.s.runs.jobs.Keys
      && forall id :: id in y.runs.jobs && Wanted(y, id) && y.runs.jobs[id].spec.timing != History && !y.runs.jobs[id].hasSample ==>
           y.runs.jobs[id].inFlight.Some? || y.runs.jobs[id].pendingSince.Some?
  {
    hide Wanted, CurrentDemand;
    var y := RefreshDemand(x, false).s;
    forall id | id in y.runs.jobs && Wanted(y, id) && y.runs.jobs[id].spec.timing != History && !y.runs.jobs[id].hasSample
      ensures y.runs.jobs[id].inFlight.Some? || y.runs.jobs[id].pendingSince.Some?
    {
      DemandIsWanted(y, id);
      SameDemand(x.s, y);
    }
  }

  lemma ReconfigureCalls(s: State, config: SchedulerConfig, e: SchedulerEvent)
    requires e == ConfigChanged(s.now, config)
    ensures CalledIn(s, e, Reconfigure(Step(s, []), config).s)
  {
    hide ReplaceJobs, ReanchorFastJobs, RefreshDemand, Publish, Wanted, CurrentDemand;
    var x2 := ReplaceJobs(Step(Reset(s, config), []), config.jobs, ConfigReplaced);
    var x3 := RefreshDemand(Step(ReanchorFastJobs(x2.s), x2.acts), false);
    RefreshedIsCalled(Step(ReanchorFastJobs(x2.s), x2.acts));
    DiscoveryCalled(s, x3.s, e);
    var y := Reconfigure(Step(s, []), config).s;
    SameCalled(s, MarkJobs(x3.s, DiscoveryJobs(x3.s)), y, e);
  }

  lemma SameCalled(s: State, a: State, b: State, e: SchedulerEvent)
    requires CalledIn(s, e, a) && b.runs == a.runs && b.settings == a.settings
    requires b.view.effectivePresented == a.view.effectivePresented && b.view.selectedPage == a.view.selectedPage
    ensures CalledIn(s, e, b)
  {
  }

  lemma DiscoveryCalled(s: State, y: State, e: SchedulerEvent)
    requires e.ConfigChanged?
    requires forall id :: id in y.runs.jobs && Wanted(y, id) && y.runs.jobs[id].spec.timing != History && !y.runs.jobs[id].hasSample ==>
               y.runs.jobs[id].inFlight.Some? || y.runs.jobs[id].pendingSince.Some?
    ensures CalledIn(s, e, MarkJobs(y, DiscoveryJobs(y)))
  {
    hide Wanted, CurrentDemand;
    var z := MarkJobs(y, DiscoveryJobs(y));
    forall id | id in z.runs.jobs && Wanted(z, id) && z.runs.jobs[id].spec.timing != History && Called(s, e, id, z.runs.jobs[id])
      ensures z.runs.jobs[id].inFlight.Some? || z.runs.jobs[id].pendingSince.Some?
    {
      DemandIsWanted(y, id);
      DemandIsWanted(z, id);
      SameDemand(y, z);
    }
  }

  lemma InventoryCalls(s: State, update: InventoryUpdate, e: SchedulerEvent)
    requires e == InventoryChanged(s.now, update)
    ensures CalledIn(s, e, ChangeInventory(Step(s, []), update).s)
  {
    hide ReplaceJobs, ActivateJobs, RefreshDemand, Wanted, CurrentDemand, AllRetried, Acknowledges;
    var before := CurrentDemand(s);
    var s1 := s.(settings := s.settings.(inventoryGeneration := update.generation, demand := update.demand));
    var x2 := ReplaceJobs(Step(s1, []), update.jobs, SourceReplaced);
    var s3 := if Acknowledges(s, update) then x2.s.(handshake := x2.s.handshake.(awaiting := None)) else x2.s;
    var s4 := ActivateJobs(s3, before, CurrentDemand(s3), s3.view.effectivePresented);
    RefreshedIsCalled(Step(s4, x2.acts));
    var x5 := RefreshDemand(Step(s4, x2.acts), false);
    if Acknowledges(s, update) {
      AllRetriedCalled(s, x5.s, e);
    }
  }

  lemma AllRetriedCalled(s: State, y: State, e: SchedulerEvent)
    ensures CalledIn(s, e, RefreshAllDemanded(y))
  {
    hide Wanted, DemandPlan.Demanded;
    var z := RefreshAllDemanded(y);
    forall id | id in z.runs.jobs && Wanted(z, id) && z.runs.jobs[id].spec.timing != History
      ensures z.runs.jobs[id].pendingSince.Some?
    {
      DemandIsWanted(y, id);
      DemandIsWanted(z, id);
      SameDemand(y, z);
    }
  }

  lemma StartCalls(s: State, config: SchedulerConfig, inventory: nat, e: SchedulerEvent)
    requires e.Startup?
    ensures CalledIn(s, e, StartUp(Step(s, []), config, inventory).s)
  {
    hide IssueFirstPaint, TableOf, Wanted, CurrentDemand;
    var s1 := Started(s, config, inventory);
    var wanted := Sampling(CurrentDemand(s1), s1.runs.jobs);
    var waiting := s1.paint.firstPaintWaiting + StartupPanel(wanted, s1.runs.jobs);
    var x2 := Step(MarkJobs(s1, wanted).(paint := s1.paint.(firstPaintWaiting := waiting)), []);
    SameDemand(s1, x2.s);
    forall id | id in x2.s.runs.jobs && Wanted(x2.s, id) && x2.s.runs.jobs[id].spec.timing != History
      ensures x2.s.runs.jobs[id].pendingSince.Some?
    {
      DemandIsWanted(x2.s, id);
    }
    PaintCalls(s, x2, e);
  }

  lemma PaintCalls(s: State, x: Step, e: SchedulerEvent)
    requires e.Startup?
    requires forall id :: id in x.s.runs.jobs && Wanted(x.s, id) && x.s.runs.jobs[id].spec.timing != History ==>
               x.s.runs.jobs[id].pendingSince.Some?
    ensures CalledIn(s, e, x.s) && CalledIn(s, e, IssueFirstPaint(x, FirstPaintReady).s)
  {
    hide IssueFirstPaint, Wanted;
    FirstPaintMarks(x, FirstPaintReady);
    FirstPaintFrame(x, FirstPaintReady);
    var y := IssueFirstPaint(x, FirstPaintReady).s;
    forall id
      ensures Wanted(x.s, id) <==> Wanted(y, id)
    {
      DemandIsWanted(x.s, id);
      DemandIsWanted(y, id);
      SameDemand(x.s, y);
    }
  }

  lemma ReloadCalls(s: State, e: SchedulerEvent)
    requires Reloads(e) && e.at == s.now
    ensures Apply(s, e).1 == Accepted && CalledIn(s, e, Apply(s, e).0.s)
  {
    hide StartUp, Reconfigure, ChangeInventory, CalledIn;
    match e
    case Startup(_, config, inventory) => StartCalls(s, config, inventory, e);
    case ConfigChanged(_, config) => ReconfigureCalls(s, config, e);
    case InventoryChanged(_, update) => InventoryCalls(s, update, e);
  }

  lemma AcknowledgesNow(s: State, e: SchedulerEvent, id: JobId, rt: JobRuntime, now: Time)
    ensures Called(s.(now := now), e, id, rt) == Called(s, e, id, rt)
  {
  }

  /** What the event's own effect leaves of a job, dispatch leaves too, but for its start. */
  lemma SettleLeaves(s: State, e: SchedulerEvent)
    requires Inv(s) && EarlyRejection(s, e).None?
    ensures var x, y := Apply(s.(now := e.at), e).0.s, Handle(s, e).s;
      && y == x.(runs := y.runs) && y.runs.jobs.Keys == x.runs.jobs.Keys
      && forall id :: id in x.runs.jobs ==>
           && y.runs.jobs[id].spec == x.runs.jobs[id].spec && y.runs.jobs[id].hasSample == x.runs.jobs[id].hasSample
           && y.runs.jobs[id].retryDue == x.runs.jobs[id].retryDue
  {
    hide Inv, Apply, ArmOk, Occupancy, Dispatch, NextWake, SortActions, EarlyRejection;
    var (x, d) := Apply(s.(now := e.at), e);
    ApplyFollows(s, e);
    ArmStartsNothing(s.(now := e.at), x, Closed(e, d));
    DispatchStartsTheBest(x);
  }

  /** After a start or a reload, every wanted job that takes samples of its own and has none, or that the reload asks
      for again, has its owner occupied, unless its retry is ahead. */
  lemma ReloadedJobIsServed(s: State, e: SchedulerEvent, id: JobId)
    requires Inv(s) && Reloads(e) && Handle(s, e).disposition == Accepted
    requires var y := Handle(s, e).s;
      && y.lifecycle == Running && y.handshake.awaiting.None? && id in y.runs.jobs && Wanted(y, id)
      && y.runs.jobs[id].spec.timing != History && Called(s, e, id, y.runs.jobs[id]) && !RetryAhead(y.runs.jobs[id].retryDue, y.now)
    ensures id.owner in Handle(s, e).s.runs.inFlightOwners
  {
    hide Inv, Apply, Handle, EarlyRejection, Called;
    AcceptedIsNotEarly(s, e);
    var s' := s.(now := e.at);
    var x := Apply(s', e).0;
    SettleLeaves(s, e);
    ReloadCalls(s', e);
    AcknowledgesNow(s, e, id, x.s.runs.jobs[id], e.at);
    SameCall(s, e, id, x.s.runs.jobs[id], Handle(s, e).s.runs.jobs[id]);
    RipeIsServed(s, e, id);
  }

  lemma SameCall(s: State, e: SchedulerEvent, id: JobId, a: JobRuntime, b: JobRuntime)
    requires a.hasSample == b.hasSample
    ensures Called(s, e, id, a) <==> Called(s, e, id, b)
  {
  }

  /** No run is started for a job that is not wanted. */
  lemma OnlyWantedStart(s: State, e: SchedulerEvent, t: JobTicket)
    requires Inv(s) && Starts(Handle(s, e).acts, t)
    ensures Wanted(Handle(s, e).s, t.job) && t.job in Handle(s, e).s.runs.jobs
  {
    hide Inv, Apply, ArmOk, Occupancy, Dispatch, NextWake, SortActions, EarlyRejection, Wanted, CurrentDemand;
    if EarlyRejection(s, e).Some? {
      EarlyRejectionCloses(s, e);
    } else {
      var (x, d) := Apply(s.(now := e.at), e);
      ApplyFollows(s, e);
      ArmStartsNothing(s.(now := e.at), x, Closed(e, d));
      DispatchStartsTheBest(x);
      SortKeepsStarts(Settle(x, d).acts);
      DemandIsWanted(x.s, t.job);
      DemandIsWanted(Handle(s, e).s, t.job);
      SameDemand(x.s, Handle(s, e).s);
    }
  }
}
