/** Samples and history deadlines: only an accepted result changes a job's sample or failure count,
    and a pending history deadline lies on its job's cadence grid with a sample behind it. */
module SchedulerHistory {
  import opened Arithmetic
  import opened Wrappers
  import opened SchedulerPolicy
  import opened SchedulerModel
  import opened SchedulerSpec
  import opened SchedulerDispatch

  // ----- one job

  /** `mark_pending` is never meant for history jobs, so nothing that calls it may be one. */
  predicate WellFormed(spec: JobSpec) {
    spec.timing == History ==> spec.amd.None? && spec.id.kind != HARDWARE_DISCOVERY
  }

  /** A history job is pending exactly with a deadline: one of its own grid points, not later than
      now, first missed no later than that, and before its next deadline. */
  ghost predicate HistoryTimes(rt: JobRuntime, now: Time) {
    if rt.spec.timing != History then rt.pendingHistoryDeadline.None?
    else
      && rt.nominalDue.Some? && rt.retryDue.None?
      && (rt.pendingSince.Some? <==> rt.pendingHistoryDeadline.Some?)
      && (rt.pendingHistoryDeadline.Some? ==>
            var d, next := rt.pendingHistoryDeadline.value, rt.nominalDue.value;
            && rt.pendingSince.value <= d <= now && d <= next
            && (rt.spec.freshness > 0 ==> d < next && OnGrid(d, rt.spec.freshness, next)))
  }

  ghost predicate HistoryOk(jobs: JobTable, now: Time) {
    forall id :: id in jobs ==> jobs[id].spec.id == id && WellFormed(jobs[id].spec) && HistoryTimes(jobs[id], now)
  }

  /** Every pending history deadline has a sample behind it. */
  ghost predicate Sourced(jobs: JobTable) {
    forall id :: id in jobs && jobs[id].pendingHistoryDeadline.Some? ==> HistoryReady(jobs[id].spec, jobs)
  }

  /** The same jobs with the same samples, failure counts and baseline requests; a retry may be dropped,
      never moved or added. */
  ghost predicate Untouched(a: JobTable, b: JobTable) {
    && a.Keys == b.Keys
    && forall id :: id in a ==>
         && b[id].spec == a[id].spec && b[id].hasSample == a[id].hasSample && b[id].failureCount == a[id].failureCount
         && b[id].needsBaseline == a[id].needsBaseline
         && (b[id].retryDue == a[id].retryDue || b[id].retryDue.None?)
  }

  /** The same, except that counters may ask for a baseline. */
  ghost predicate Awoken(a: JobTable, b: JobTable) {
    && a.Keys == b.Keys
    && forall id :: id in a ==>
         && b[id].spec == a[id].spec && b[id].hasSample == a[id].hasSample && b[id].failureCount == a[id].failureCount
         && (b[id].needsBaseline == a[id].needsBaseline || (a[id].spec.counter && b[id].needsBaseline))
         && (b[id].retryDue == a[id].retryDue || b[id].retryDue.None?)
  }

  /** History deadlines stay in order and sourced. */
  ghost predicate Kept(a: JobTable, b: JobTable, now: Time) {
    && (HistoryOk(a, now) ==> HistoryOk(b, now))
    && (HistoryOk(a, now) && Sourced(a) ==> Sourced(b))
  }

  /** No result is touched and history deadlines stay in order. */
  ghost predicate Gentle(a: JobTable, b: JobTable, now: Time) {
    Untouched(a, b) && Kept(a, b, now)
  }

  lemma GentleChain(a: JobTable, b: JobTable, c: JobTable, now: Time)
    requires Gentle(a, b, now) && Gentle(b, c, now)
    ensures Gentle(a, c, now)
  {
    hide HistoryOk, Sourced;
  }

  lemma GentleSelf(a: JobTable, now: Time)
    ensures Gentle(a, a, now)
  {
    hide HistoryOk, Sourced;
  }

  /** A table whose jobs each stay in order, and whose pending deadlines are old or sourced. */
  lemma JobwiseKept(a: JobTable, b: JobTable, now: Time)
    requires Awoken(a, b)
    requires forall id :: id in a && WellFormed(a[id].spec) && HistoryTimes(a[id], now) && a[id].spec.id == id ==>
               HistoryTimes(b[id], now)
    requires HistoryOk(a, now) ==>
               forall id :: id in a && b[id].pendingHistoryDeadline.Some? ==>
                 a[id].pendingHistoryDeadline.Some? || HistoryReady(a[id].spec, a)
    ensures Kept(a, b, now)
  {
    hide HistoryTimes, WellFormed;
    if HistoryOk(a, now) && Sourced(a) {
      forall id | id in b && b[id].pendingHistoryDeadline.Some?
        ensures HistoryReady(b[id].spec, b)
      {
        assert HistoryReady(a[id].spec, a);
      }
    }
  }

  lemma JobwiseGentle(a: JobTable, b: JobTable, now: Time)
    requires Untouched(a, b)
    requires forall id :: id in a && WellFormed(a[id].spec) && HistoryTimes(a[id], now) && a[id].spec.id == id ==>
               HistoryTimes(b[id], now)
    requires HistoryOk(a, now) ==>
               forall id :: id in a && b[id].pendingHistoryDeadline.Some? ==>
                 a[id].pendingHistoryDeadline.Some? || HistoryReady(a[id].spec, a)
    ensures Gentle(a, b, now)
  {
    hide HistoryTimes, WellFormed, HistoryReady, HistoryOk, Kept;
    JobwiseKept(a, b, now);
  }

  lemma MarkedIsGentle(jobs: JobTable, which: set<JobId>, now: Time)
    requires HistoryOk(jobs, now) ==> forall id :: id in which && id in jobs ==> jobs[id].spec.timing != History
    ensures Untouched(jobs, Marked(jobs, which, now)) && Gentle(jobs, Marked(jobs, which, now), now)
  {
    hide OnGrid;
    var b := Marked(jobs, which, now);
    if HistoryOk(jobs, now) {
      JobwiseGentleOk(jobs, b, now);
    }
  }

  lemma JobwiseGentleOk(a: JobTable, b: JobTable, now: Time)
    requires Untouched(a, b) && HistoryOk(a, now)
    requires forall id :: id in a ==> HistoryTimes(b[id], now)
    requires forall id :: id in a && b[id].pendingHistoryDeadline.Some? ==>
               a[id].pendingHistoryDeadline.Some? || HistoryReady(a[id].spec, a)
    ensures Gentle(a, b, now)
  {
    hide HistoryTimes, WellFormed;
    if Sourced(a) {
      forall id | id in b && b[id].pendingHistoryDeadline.Some?
        ensures HistoryReady(b[id].spec, b)
      {
        assert HistoryReady(a[id].spec, a);
      }
    }
  }

  lemma SamplingAreNotHistory(ids: set<JobId>, jobs: JobTable)
    ensures forall id :: id in Sampling(ids, jobs) && id in jobs ==> jobs[id].spec.timing != History
  {
  }

  lemma RestedIsGentle(jobs: JobTable, which: set<JobId>, now: Time)
    ensures Gentle(jobs, AllRested(jobs, which), now)
  {
    hide OnGrid, HistoryReady;
    JobwiseGentle(jobs, AllRested(jobs, which), now);
  }

  lemma RefreshedIsGentle(jobs: JobTable, demanded: set<JobId>, now: Time)
    ensures Gentle(jobs, DemandRefreshed(jobs, demanded, now), now)
  {
    hide OnGrid, HistoryReady;
    JobwiseGentle(jobs, DemandRefreshed(jobs, demanded, now), now);
  }

  lemma LandedIsGentle(jobs: JobTable, which: set<JobId>, now: Time)
    ensures Gentle(jobs, Landed(jobs, which), now)
  {
    hide OnGrid, HistoryReady;
    JobwiseGentle(jobs, Landed(jobs, which), now);
  }

  lemma RetriedIsGentle(jobs: JobTable, ids: set<JobId>, now: Time)
    ensures Gentle(jobs, AllRetried(jobs, Sampling(ids, jobs), now), now)
  {
    hide OnGrid, HistoryReady;
    JobwiseGentle(jobs, AllRetried(jobs, Sampling(ids, jobs), now), now);
  }

  lemma ReanchoredIsGentle(jobs: JobTable, due: Time, now: Time)
    ensures Gentle(jobs, Reanchored(jobs, due), now)
  {
    hide OnGrid, HistoryReady;
    JobwiseGentle(jobs, Reanchored(jobs, due), now);
  }

  lemma ResumedIsKept(jobs: JobTable, demanded: set<JobId>, now: Time)
    ensures Awoken(jobs, ResumedJobs(jobs, demanded, now)) && Kept(jobs, ResumedJobs(jobs, demanded, now), now)
  {
    hide OnGrid, HistoryReady, AdvancePast;
    JobwiseKept(jobs, ResumedJobs(jobs, demanded, now), now);
  }

  /** Time moves a history job's deadline to the latest grid point missed and its next deadline one
      step further. */
  lemma TimedHistory(rt: JobRuntime, ready: bool, now: Time)
    requires rt.spec.timing == History && HistoryTimes(rt, now)
    ensures HistoryTimes(TimedRuntime(rt, ready, now), now)
    ensures TimedRuntime(rt, ready, now).pendingHistoryDeadline.Some? ==> rt.pendingHistoryDeadline.Some? || ready
  {
    hide AdvancePast, LatestDueAtOrBefore, OnGrid;
    var cadence := rt.spec.freshness;
    if Due(rt.nominalDue, now) {
      var due := rt.nominalDue.value;
      if cadence > 0 {
        LatestDueIsLastGridPoint(due, cadence, now);
        AdvancePastIsNextGridPoint(due, cadence, now);
        var d := LatestDueAtOrBefore(due, cadence, now);
        NextOnGrid(d, cadence);
        if rt.pendingHistoryDeadline.Some? {
          GridTransitive(rt.pendingHistoryDeadline.value, cadence, due, AdvancePast(due, cadence, now));
        }
      } else {
        ZeroCadence(due, now);
      }
    }
  }

  lemma NextOnGrid(d: Time, cadence: Duration)
    ensures OnGrid(d, cadence, d + cadence)
  {
    assert d + cadence == GridPoint(d, cadence, 1);
  }

  lemma GridTransitive(a: Time, cadence: Duration, b: Time, c: Time)
    requires OnGrid(a, cadence, b) && OnGrid(b, cadence, c)
    ensures OnGrid(a, cadence, c)
  {
    var i: nat :| b == GridPoint(a, cadence, i);
    var j: nat :| c == GridPoint(b, cadence, j);
    assert (i + j) * cadence == i * cadence + j * cadence;
    assert c == GridPoint(a, cadence, i + j);
  }

  lemma ZeroCadence(due: Time, now: Time)
    requires due <= now
    ensures AdvancePast(due, 0, now) == now && LatestDueAtOrBefore(due, 0, now) == due
  {
  }

  lemma TimedOther(rt: JobRuntime, ready: bool, now: Time)
    requires rt.spec.timing != History && rt.pendingHistoryDeadline.None?
    ensures TimedRuntime(rt, ready, now).pendingHistoryDeadline.None?
  {
    hide AdvancePast;
  }

  lemma TimedSamples(rt: JobRuntime, ready: bool, now: Time)
    ensures var r := TimedRuntime(rt, ready, now);
      && r.spec == rt.spec && r.hasSample == rt.hasSample && r.failureCount == rt.failureCount
      && r.needsBaseline == rt.needsBaseline && (r.retryDue == rt.retryDue || r.retryDue.None?)
  {
    hide AdvancePast, LatestDueAtOrBefore;
  }

  lemma TimedIsGentle(jobs: JobTable, demanded: set<JobId>, now: Time)
    ensures Gentle(jobs, TimedJobs(jobs, demanded, now), now)
  {
    hide TimedRuntime, OnGrid, HistoryReady, WellFormed;
    var b := TimedJobs(jobs, demanded, now);
    forall id | id in jobs
      ensures b[id].spec == jobs[id].spec && b[id].hasSample == jobs[id].hasSample && b[id].failureCount == jobs[id].failureCount
      ensures b[id].needsBaseline == jobs[id].needsBaseline
      ensures b[id].retryDue == jobs[id].retryDue || b[id].retryDue.None?
    {
      TimedSamples(jobs[id], HistoryReady(jobs[id].spec, jobs), now);
    }
    if HistoryOk(jobs, now) {
      forall id | id in jobs
        ensures HistoryTimes(b[id], now)
        ensures b[id].pendingHistoryDeadline.Some? ==> jobs[id].pendingHistoryDeadline.Some? || HistoryReady(jobs[id].spec, jobs)
      {
        if jobs[id].spec.timing == History {
          TimedHistory(jobs[id], HistoryReady(jobs[id].spec, jobs), now);
        } else {
          TimedOther(jobs[id], HistoryReady(jobs[id].spec, jobs), now);
        }
      }
      JobwiseGentleOk(jobs, b, now);
    }
  }

  // ----- the steps of an event

  /** The step leaves the clock alone and is gentle with the job table. */
  ghost predicate GentleStep(a: State, b: State) {
    a.now == b.now && Gentle(a.runs.jobs, b.runs.jobs, a.now)
  }

  lemma StepChain(a: State, b: State, c: State)
    requires GentleStep(a, b) && GentleStep(b, c)
    ensures GentleStep(a, c)
  {
    hide Gentle;
    GentleChain(a.runs.jobs, b.runs.jobs, c.runs.jobs, a.now);
  }

  lemma StepSelf(a: State, b: State)
    requires a.now == b.now && a.runs.jobs == b.runs.jobs
    ensures GentleStep(a, b)
  {
    hide Gentle;
    GentleSelf(a.runs.jobs, a.now);
  }

  lemma FirstPaintGentle(x: Step, why: PublishReason)
    ensures GentleStep(x.s, IssueFirstPaint(x, why).s)
  {
    hide Gentle, Publish, AdvancePast, FirstPaintSkips, Reanchored;
    GentleSelf(x.s.runs.jobs, x.s.now);
    if !x.s.paint.firstPaintIssued && Due(x.s.paint.nextDisplay, x.s.now) {
      var next := AdvancePast(x.s.paint.nextDisplay.value, x.s.settings.displayInterval, x.s.now);
      ReanchoredIsGentle(x.s.runs.jobs, SaturatingSub(next, FAST_PREFETCH), x.s.now);
    }
  }

  lemma CancelGentle(x: Step, which: set<JobId>, reason: CancelReason)
    ensures GentleStep(x.s, CancelWhere(x, which, reason).s)
  {
    hide Gentle, Landed, AddTickets, Moved;
    LandedIsGentle(x.s.runs.jobs, which, x.s.now);
  }

  lemma RefreshDemandGentle(x: Step, cancelPageJobs: bool)
    ensures GentleStep(x.s, RefreshDemand(x, cancelPageJobs).s)
  {
    hide Gentle, CancelWhere, DemandRefreshed, CurrentDemand;
    var demanded := CurrentDemand(x.s);
    var y := Step(WithJobs(x.s, DemandRefreshed(x.s.runs.jobs, demanded, x.s.now)), x.acts);
    RefreshedIsGentle(x.s.runs.jobs, demanded, x.s.now);
    if cancelPageJobs {
      var ended := PageWork(x.s.runs.jobs.Keys - demanded);
      CancelGentle(y, ended, DemandEnded);
      StepChain(x.s, y.s, CancelWhere(y, ended, DemandEnded).s);
    }
  }

  lemma CancelDemandEndedGentle(x: Step, before: set<JobId>, after: set<JobId>)
    ensures GentleStep(x.s, CancelDemandEnded(x, before, after).s)
  {
    hide Gentle, CancelWhere, AllRested, PageWork;
    var ended := PageWork(before - after);
    var y := Step(WithJobs(x.s, AllRested(x.s.runs.jobs, ended)), x.acts);
    RestedIsGentle(x.s.runs.jobs, ended, x.s.now);
    CancelGentle(y, ended, DemandEnded);
    StepChain(x.s, y.s, CancelWhere(y, ended, DemandEnded).s);
  }

  lemma ActivateGentle(s: State, before: set<JobId>, after: set<JobId>, track: bool)
    ensures GentleStep(s, ActivateJobs(s, before, after, track))
  {
    hide Gentle, Marked, Sampling;
    SamplingAreNotHistory(after - before, s.runs.jobs);
    MarkedIsGentle(s.runs.jobs, Sampling(after - before, s.runs.jobs), s.now);
  }

  lemma RefreshActivationGentle(x: Step)
    ensures GentleStep(x.s, RefreshActivation(x).s)
  {
    hide Gentle, Marked, Publish;
    MarkedIsGentle(x.s.runs.jobs, Stale(x.s.runs.jobs), x.s.now);
  }

  lemma ProcessTimeGentle(x: Step)
    ensures GentleStep(x.s, ProcessTime(x).s)
  {
    hide Gentle, RefreshDemand, IssueFirstPaint, Publish, TimedJobs, CurrentDemand, SkippedIntervals, AdvancePast, GentleStep;
    var a := ExpireDeactivation(x);
    assert GentleStep(x.s, a.s) by { DeactivationGentle(x); }
    var b := ExpireFirstPaint(a);
    StepSelf(a.s, a.s);
    FirstPaintGentle(a, FirstPaintTimeout);
    StepChain(x.s, a.s, b.s);
    var c := ExpireActivation(b);
    StepSelf(b.s, c.s);
    StepChain(x.s, b.s, c.s);
    var d := DisplayTick(c);
    StepSelf(c.s, d.s);
    StepChain(x.s, c.s, d.s);
    TimedIsGentle(d.s.runs.jobs, CurrentDemand(d.s), d.s.now);
    assert GentleStep(d.s, ProcessTime(x).s) by { TimeJobsGentle(d.s); }
    StepChain(x.s, d.s, ProcessTime(x).s);
  }

  lemma TimeJobsGentle(s: State)
    ensures GentleStep(s, TimeJobs(s))
  {
    hide Gentle, TimedJobs, CurrentDemand;
    TimedIsGentle(s.runs.jobs, CurrentDemand(s), s.now);
  }

  lemma DeactivationGentle(x: Step)
    ensures GentleStep(x.s, ExpireDeactivation(x).s)
  {
    hide Gentle, RefreshDemand;
    GentleSelf(x.s.runs.jobs, x.s.now);
    var y := Step(x.s.(view := x.s.view.(deactivationDeadline := None, effectivePresented := false)), x.acts);
    RefreshDemandGentle(y, true);
  }

  lemma TimeFirstGentle(s: State)
    ensures GentleStep(s, TimeFirst(s).s)
  {
    hide GentleStep, ProcessTime;
    StepSelf(s, s);
    ProcessTimeGentle(Step(s, []));
  }

  lemma ChangeDemandGentle(x: Step, demand: DemandPlan)
    ensures GentleStep(x.s, ChangeDemand(x, demand).s)
  {
    hide GentleStep, CancelDemandEnded, ActivateJobs, RefreshDemand, RebuildFirstPaintBlockers, CurrentDemand;
    var before := CurrentDemand(x.s);
    var x1 := Step(x.s.(settings := x.s.settings.(demand := demand)), x.acts);
    var after := CurrentDemand(x1.s);
    var x2 := CancelDemandEnded(x1, before, after);
    var x3 := Step(ActivateJobs(x2.s, before, after, x2.s.view.effectivePresented), x2.acts);
    var x4 := RefreshDemand(x3, false);
    StepSelf(x.s, x1.s);
    CancelDemandEndedGentle(x1, before, after);
    StepChain(x.s, x1.s, x2.s);
    ActivateGentle(x2.s, before, after, x2.s.view.effectivePresented);
    StepChain(x.s, x2.s, x3.s);
    RefreshDemandGentle(x3, false);
    StepChain(x.s, x3.s, x4.s);
    RebuildGentle(x4);
    StepChain(x.s, x4.s, RebuildFirstPaintBlockers(x4).s);
  }

  lemma RebuildGentle(x: Step)
    ensures GentleStep(x.s, RebuildFirstPaintBlockers(x).s)
  {
    hide Gentle, IssueFirstPaint, FirstPaintBlockers;
    StepSelf(x.s, x.s);
    var y := Step(x.s.(paint := x.s.paint.(firstPaintWaiting := FirstPaintBlockers(x.s.runs.jobs, CurrentDemand(x.s)))), x.acts);
    FirstPaintGentle(y, FirstPaintReady);
  }

  lemma ChangePageGentle(x: Step, page: PageId)
    ensures GentleStep(x.s, ChangePage(x, page).s)
  {
    hide GentleStep, CancelDemandEnded, ActivateJobs, Publish, CurrentDemand;
    StepSelf(x.s, x.s);
    var before := CurrentDemand(x.s);
    var x1 := Step(x.s.(view := x.s.view.(selectedPage := page)), x.acts);
    var after := CurrentDemand(x1.s);
    var x2 := CancelDemandEnded(x1, before, after);
    var x3 := Step(ActivateJobs(x2.s, before, after, true), x2.acts);
    StepSelf(x.s, x1.s);
    CancelDemandEndedGentle(x1, before, after);
    StepChain(x.s, x1.s, x2.s);
    ActivateGentle(x2.s, before, after, true);
    StepChain(x.s, x2.s, x3.s);
    var x4 := IssuePublish(x3, PageChanged, None, 0, false, true);
    StepSelf(x3.s, x4.s);
    StepChain(x.s, x3.s, x4.s);
  }

  lemma ChangePresentationGentle(x: Step, presented: bool)
    ensures GentleStep(x.s, ChangePresentation(x, presented).s)
  {
    hide GentleStep, ActivateJobs, RefreshActivation, CurrentDemand;
    StepSelf(x.s, HideTooltip(x.s));
    var s1 := x.s.(view := x.s.view.(presented := true, deactivationDeadline := None, effectivePresented := true));
    StepSelf(x.s, s1);
    var before := s1.settings.demand.Demanded(false, s1.view.selectedPage);
    ActivateGentle(s1, before, CurrentDemand(s1), true);
    StepChain(x.s, s1, ActivateJobs(s1, before, CurrentDemand(s1), true));
    var y := Step(ShowTooltip(x.s), x.acts);
    RefreshActivationGentle(y);
    StepChain(x.s, y.s, RefreshActivation(y).s);
  }

  lemma {:induction false} StartEachGentle(x: Step, cs: seq<Candidate>)
    requires Listed(x.s.runs.jobs, cs)
    ensures GentleStep(x.s, StartEach(x, cs).s)
  {
    hide GentleStep, Launch, TicketFor;
    StepSelf(x.s, x.s);
    if cs != [] {
      var last := |cs| - 1;
      StartEachGentle(x, cs[..last]);
      var y := StartEach(x, cs[..last]);
      StepSelf(y.s, y.s);
      LaunchGentle(y.s, TicketFor(y.s, cs[last].id)) by { assert TicketFor(y.s, cs[last].id).job == cs[last].id by { TicketJob(y.s, cs[last].id); } }
      TicketJob(y.s, cs[last].id);
      StepChain(x.s, y.s, StartEach(x, cs).s);
    }
  }

  lemma TicketJob(s: State, id: JobId)
    requires id in s.runs.jobs
    ensures TicketFor(s, id).job == id && TicketFor(s, id).historyDeadline == s.runs.jobs[id].pendingHistoryDeadline
  {
  }

  lemma LaunchGentle(s: State, t: JobTicket)
    requires t.job in s.runs.jobs
    ensures GentleStep(s, s.(runs := Launch(s.runs, t)))
  {
    hide OnGrid, HistoryReady;
    JobwiseGentle(s.runs.jobs, Launch(s.runs, t).jobs, s.now);
  }

  lemma SettleGentle(x: Step, d: EventDisposition)
    ensures GentleStep(x.s, Settle(x, d).s)
  {
    hide GentleStep, StartEach, NextWake, CandidatesInOrder, Candidates;
    StepSelf(x.s, x.s);
    CandidatesListed(x.s);
    StartEachGentle(x, CandidatesInOrder(Candidates(x.s)));
  }
}
