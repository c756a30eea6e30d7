/** Whole events, seen from samples and history deadlines. */
module SchedulerResults {
  import opened Arithmetic
  import opened Wrappers
  import opened SchedulerPolicy
  import opened SchedulerModel
  import opened SchedulerSpec
  import opened SchedulerInvariant
  import opened SchedulerDispatch
  import opened SchedulerRuns
  import opened SchedulerHistory

  // ----- events that touch no sample

  /** Events that bring a new job table. */
  predicate Reloads(e: SchedulerEvent) {
    e.Startup? || e.ConfigChanged? || e.InventoryChanged?
  }

  lemma ResumeIsKept(x: Step)
    ensures var y := ResumeNow(x).s;
      y.now == x.s.now && Awoken(x.s.runs.jobs, y.runs.jobs) && Kept(x.s.runs.jobs, y.runs.jobs, x.s.now)
  {
    hide Awoken, Kept, ResumedJobs, Reanchored, CurrentDemand;
    AwokenSelf(x.s.runs.jobs, x.s.now);
    if x.s.lifecycle == Suspended {
      var s1 := Awakened(x.s);
      var resumed := ResumedJobs(s1.runs.jobs, CurrentDemand(s1), s1.now);
      ReanchoredIsGentle(x.s.runs.jobs, SaturatingSub(x.s.now + x.s.settings.displayInterval, FAST_PREFETCH), x.s.now);
      ResumedIsKept(s1.runs.jobs, CurrentDemand(s1), s1.now);
      AwokenAfterGentle(x.s.runs.jobs, s1.runs.jobs, resumed, x.s.now);
    }
  }

  lemma AwokenSelf(a: JobTable, now: Time)
    ensures Awoken(a, a) && Kept(a, a, now)
  {
    hide HistoryOk, Sourced;
  }

  lemma AwokenAfterGentle(a: JobTable, b: JobTable, c: JobTable, now: Time)
    requires Gentle(a, b, now) && Awoken(b, c) && Kept(b, c, now)
    ensures Awoken(a, c) && Kept(a, c, now)
  {
    hide HistoryOk, Sourced;
  }

  lemma StopsAreGentle(x: Step, reason: CancelReason, component: Option<string>)
    ensures GentleStep(x.s, SuspendNow(x).s) && GentleStep(x.s, StopNow(x, reason, component).s)
  {
    hide Gentle, CancelWhere;
    StepSelf(x.s, x.s);
    CancelGentle(x, x.s.runs.jobs.Keys, ForSuspend);
    CancelGentle(x, x.s.runs.jobs.Keys, reason);
  }

  lemma TriggerGentle(s: State, job: JobId)
    ensures GentleStep(s, ApplyTrigger(s, job).s)
  {
    hide Gentle, TimeFirst, Marked, CurrentDemand, Sampling;
    TimeFirstGentle(s);
    var x := TimeFirst(s);
    var which := Sampling({job} * CurrentDemand(x.s), x.s.runs.jobs);
    SamplingAreNotHistory({job} * CurrentDemand(x.s), x.s.runs.jobs);
    MarkedIsGentle(x.s.runs.jobs, which, x.s.now);
    StepChain(s, x.s, ApplyTrigger(s, job).s);
  }

  lemma ReleaseGentle(s: State, t: JobTicket)
    ensures GentleStep(s, FinishCancellation(s, t))
  {
    hide Gentle;
    StepSelf(s, FinishCancellation(s, t));
  }

  lemma CancelledGentle(s: State, t: JobTicket)
    ensures GentleStep(s, ApplyCancelled(s, t).0.s)
  {
    hide GentleStep, TimeFirst, FinishCancellation, Cancelling;
    var x := TimeFirst(s);
    TimeFirstGentle(s);
    ReleaseGentle(x.s, t);
    StepChain(s, x.s, FinishCancellation(x.s, t));
  }

  lemma UnappliedGentle(s: State, t: JobTicket, completion: CompletionKind, ready: bool)
    requires Cancelling(s.runs, t) || !Finishes(TimeFirst(s).s, t)
    ensures GentleStep(s, ApplyCompletion(s, t, completion, ready).0.s)
  {
    hide GentleStep, TimeFirst, FinishCancellation, Cancelling, Finishes, FinishJob;
    var x := TimeFirst(s);
    TimeFirstGentle(s);
    ReleaseGentle(x.s, t);
    StepChain(s, x.s, FinishCancellation(x.s, t));
  }

  lemma QuietApply(s: State, e: SchedulerEvent)
    requires !Reloads(e) && !e.Resume?
    requires e.JobFinished? ==> Cancelling(s.runs, e.ticket) || !Finishes(TimeFirst(s).s, e.ticket)
    ensures GentleStep(s, Apply(s, e).0.s)
  {
    hide GentleStep, ChangeDemand, ChangePresentation, RefreshActivation, ChangePage, IssuePublish, ApplyCompletion,
         ApplyCancelled, ApplyTrigger, SuspendNow, StopNow, TimeFirst, Acknowledge, Cancelling, Finishes;
    var x := Step(s, []);
    StepSelf(s, s);
    match e
    case TimeAdvanced(_) => TimeFirstGentle(s);
    case DemandChanged(_, demand) => ChangeDemandGentle(x, demand);
    case TooltipPresented(_, presented) => ChangePresentationGentle(x, presented);
    case TooltipReactivated(_) => RefreshActivationGentle(x);
    case SelectedPageChanged(_, page) => ChangePageGentle(x, page);
    case DisplayRefreshRequested(_) => PublishGentle(x, ConfigReload, true, s.view.effectivePresented);
    case TooltipRefreshRequested(_) => PublishGentle(x, TooltipRefresh, false, true);
    case JobFinished(_, t, completion, ready) => UnappliedGentle(s, t, completion, ready);
    case JobCancelled(_, t) => CancelledGentle(s, t);
    case RefreshTriggered(_, job) => TriggerGentle(s, job);
    case PanelPublished(_, publication) => AcknowledgeGentle(s, publication);
    case Suspend(_) => StopsAreGentle(x, ForSuspend, None);
    case Shutdown(_) => StopsAreGentle(x, ForShutdown, None);
    case CriticalFailure(_, component) => StopsAreGentle(x, ForCriticalFailure, Some(component));
  }

  /** The arm of an event that neither reloads nor records a result. */
  lemma QuietArmKept(s: State, e: SchedulerEvent)
    requires !Reloads(e)
    requires e.JobFinished? ==> Cancelling(s.runs, e.ticket) || !Finishes(TimeFirst(s).s, e.ticket)
    ensures var x := Apply(s, e).0; x.s.now == s.now && Kept(s.runs.jobs, x.s.runs.jobs, s.now)
  {
    hide Apply, GentleStep, Kept, Awoken, ResumeNow, Cancelling, Finishes, TimeFirst;
    if e.Resume? {
      ResumeIsKept(Step(s, []));
      ResumeApplies(s, e);
    } else {
      QuietApply(s, e);
      GentleFacts(s, Apply(s, e).0.s);
    }
  }

  lemma PublishGentle(x: Step, why: PublishReason, panel: bool, tooltip: bool)
    ensures GentleStep(x.s, IssuePublish(x, why, None, 0, panel, tooltip).s)
  {
    hide Gentle, Publish;
    StepSelf(x.s, IssuePublish(x, why, None, 0, panel, tooltip).s);
  }

  lemma AcknowledgeGentle(s: State, publication: PublicationId)
    ensures GentleStep(s, Acknowledge(s, publication))
  {
    hide Gentle;
    StepSelf(s, Acknowledge(s, publication));
  }

  lemma LaterHistory(jobs: JobTable, now: Time, later: Time)
    requires HistoryOk(jobs, now) && now <= later
    ensures HistoryOk(jobs, later)
  {
    hide OnGrid, WellFormed;
  }

  lemma HandleIsSettled(s: State, e: SchedulerEvent)
    requires EarlyRejection(s, e).None?
    ensures var (x, d) := Apply(s.(now := e.at), e);
      Handle(s, e) == Outcome(Settle(x, d).s, d, SortActions(Settle(x, d).acts))
  {
    hide Apply, Settle, SortActions;
  }

  lemma HandleRejected(s: State, e: SchedulerEvent)
    requires EarlyRejection(s, e).Some?
    ensures Handle(s, e).s == s && Handle(s, e).acts == []
  {
    hide Apply, Settle, SortActions;
  }

  lemma QuietHandle(s: State, e: SchedulerEvent)
    requires EarlyRejection(s, e).None? && !Reloads(e)
    requires var s' := s.(now := e.at);
      e.JobFinished? ==> Cancelling(s'.runs, e.ticket) || !Finishes(TimeFirst(s').s, e.ticket)
    ensures var a, out := s.runs.jobs, Handle(s, e).s;
      && out.now == e.at && Kept(a, out.runs.jobs, e.at)
      && (if e.Resume? then Awoken(a, out.runs.jobs) else Untouched(a, out.runs.jobs))
  {
    hide Handle, Apply, Settle, GentleStep, EarlyRejection, Cancelling, Finishes, TimeFirst, ResumeNow;
    var s' := s.(now := e.at);
    var (x, d) := Apply(s', e);
    SettleGentle(x, d);
    HandleIsSettled(s, e);
    if e.Resume? {
      ResumeIsKept(Step(s', []));
      assert x == ResumeNow(Step(s', [])) by { ResumeApplies(s', e); }
      AwokenSettles(s', x.s, Settle(x, d).s);
    } else {
      QuietApply(s', e);
      StepChain(s', x.s, Settle(x, d).s);
      GentleFacts(s', Settle(x, d).s);
    }
  }

  lemma ResumeApplies(s: State, e: SchedulerEvent)
    requires e.Resume?
    ensures Apply(s, e) == (ResumeNow(Step(s, [])), Accepted)
  {
    hide ResumeNow;
  }

  lemma GentleFacts(a: State, b: State)
    requires GentleStep(a, b)
    ensures b.now == a.now && Kept(a.runs.jobs, b.runs.jobs, a.now) && Untouched(a.runs.jobs, b.runs.jobs)
  {
    hide Kept, Untouched;
  }

  lemma AwokenSettles(a: State, b: State, c: State)
    requires a.now == b.now && Awoken(a.runs.jobs, b.runs.jobs) && Kept(a.runs.jobs, b.runs.jobs, a.now) && GentleStep(b, c)
    ensures c.now == a.now && Awoken(a.runs.jobs, c.runs.jobs) && Kept(a.runs.jobs, c.runs.jobs, a.now)
  {
    hide HistoryOk, Sourced;
  }

  lemma UnappliedUnfinished(s: State, e: SchedulerEvent)
    requires EarlyRejection(s, e).None? && e.JobFinished? && !Applies(s, e, e.ticket)
    ensures var s' := s.(now := e.at); Cancelling(s'.runs, e.ticket) || !Finishes(TimeFirst(s').s, e.ticket)
  {
    hide Settle, SortActions, EarlyRejection, TimeFirst, Finishes, FinishJob, FinishCancellation, Cancelling;
    HandleIsSettled(s, e);
  }

  /** An event that neither reloads the job table nor records a result leaves every job's sample, failure
      count and baseline request as it found them, and moves or adds no retry; only a resume lets counters
      ask for a baseline. */
  lemma OnlyResultsTouchSamples(s: State, e: SchedulerEvent)
    requires !Reloads(e) && (e.JobFinished? ==> !Applies(s, e, e.ticket))
    ensures var a, b := s.runs.jobs, Handle(s, e).s.runs.jobs;
      if e.Resume? then Awoken(a, b) else Untouched(a, b)
  {
    hide Handle, EarlyRejection, Cancelling, Finishes, TimeFirst, Applies, HistoryOk, Sourced, Reloads;
    if EarlyRejection(s, e).None? {
      if e.JobFinished? { UnappliedUnfinished(s, e); }
      QuietHandle(s, e);
    } else {
      HandleRejected(s, e);
    }
  }

  // ----- events that record a result

  /** Whether job `id` has a sample once `t` has completed. */
  predicate SampleAfter(jobs: JobTable, t: JobTicket, completion: CompletionKind, id: JobId)
    requires id in jobs
  {
    match completion
    case Captured => id == t.job || jobs[id].hasSample
    case ConfirmedAbsent => id != t.job && jobs[id].spec.historySource != Some(t.job) && jobs[id].hasSample
    case _ => jobs[id].hasSample
  }

  function FailuresAfter(jobs: JobTable, t: JobTicket, completion: CompletionKind, id: JobId): nat
    requires id in jobs
  {
    if id != t.job then jobs[id].failureCount
    else if completion == Failed then FailedOnce(jobs[id].failureCount)
    else 0
  }

  /** The job's retry once a completion at `now` has been recorded: the backoff after a failure, a short
      wait after a baseline, none otherwise. Histories are not retried. */
  predicate RetryAfter(was: JobRuntime, completion: CompletionKind, now: Time, rt: JobRuntime) {
    match completion
    case Captured => rt.retryDue == None
    case ConfirmedAbsent => rt.retryDue == None
    case Baseline => rt.retryDue == if was.spec.timing == History then None else Some(now + RETRY_BASE)
    case Failed =>
      if was.spec.timing == History then rt.retryDue == was.retryDue || rt.retryDue == None
      else rt.retryDue == Some(now + RetryDelay(FailedOnce(was.failureCount), was.spec.freshness))
  }

  function BaselineAfter(was: JobRuntime, completion: CompletionKind): bool {
    completion == Baseline || (completion == Failed && was.needsBaseline)
  }

  /** The table `b` is `a` with exactly the result of `t` recorded at `now`. */
  ghost predicate Recorded(a: JobTable, t: JobTicket, completion: CompletionKind, now: Time, b: JobTable) {
    && a.Keys == b.Keys
    && forall id :: id in a ==> RecordedAt(a, t, completion, now, id, b[id])
  }

  predicate RecordedAt(a: JobTable, t: JobTicket, completion: CompletionKind, now: Time, id: JobId, rt: JobRuntime)
    requires id in a
  {
    && rt.spec == a[id].spec
    && rt.hasSample == SampleAfter(a, t, completion, id)
    && rt.failureCount == FailuresAfter(a, t, completion, id)
    && (if id == t.job then RetryAfter(a[id], completion, now, rt)
        else rt.retryDue == a[id].retryDue || rt.retryDue.None?)
    && rt.needsBaseline == if id == t.job then BaselineAfter(a[id], completion) else a[id].needsBaseline
  }

  lemma CompletedIsRecorded(jobs: JobTable, t: JobTicket, completion: CompletionKind, now: Time)
    requires t.job in jobs
    ensures Recorded(jobs, t, completion, now, CompletedJobs(jobs, t, completion, now))
  {
    hide RetryDelay;
  }

  /** The same results, retries included. */
  ghost predicate SameResults(a: JobTable, b: JobTable) {
    && a.Keys == b.Keys
    && forall id :: id in a ==>
         && b[id].spec == a[id].spec && b[id].hasSample == a[id].hasSample && b[id].failureCount == a[id].failureCount
         && b[id].needsBaseline == a[id].needsBaseline && b[id].retryDue == a[id].retryDue
  }

  lemma RecordedFrame(a: JobTable, b: JobTable, c: JobTable, d: JobTable, t: JobTicket, completion: CompletionKind, now: Time)
    requires Untouched(a, b) && Recorded(b, t, completion, now, c) && SameResults(c, d)
    ensures Recorded(a, t, completion, now, d)
  {
    hide RecordedAt;
    forall id | id in a
      ensures RecordedAt(a, t, completion, now, id, d[id])
    {
      RecordedJob(a, b, t, completion, now, id, c[id], d[id]);
    }
  }

  lemma RecordedJob(a: JobTable, b: JobTable, t: JobTicket, completion: CompletionKind, now: Time, id: JobId,
                    rt: JobRuntime, later: JobRuntime)
    requires Untouched(a, b) && id in a && RecordedAt(b, t, completion, now, id, rt)
    requires later.spec == rt.spec && later.hasSample == rt.hasSample && later.failureCount == rt.failureCount
    requires later.needsBaseline == rt.needsBaseline && later.retryDue == rt.retryDue
    ensures RecordedAt(a, t, completion, now, id, later)
  {
    hide RetryDelay, FailedOnce;
  }

  lemma FinishTailSame(x: Step, t: JobTicket, completion: CompletionKind, ready: bool)
    requires Finishes(x.s, t)
    ensures SameResults(LandRun(x.s, t, completion).runs.jobs, FinishJob(x, t, completion, ready).s.runs.jobs)
  {
    hide LandRun, CompletionActions, Publish, IssueFirstPaint;
    FirstPaintSame(Step(LandRun(x.s, t, completion), x.acts + CompletionActions(x.s, t, completion, ready)), FirstPaintReady);
  }

  lemma FirstPaintSame(x: Step, why: PublishReason)
    ensures SameResults(x.s.runs.jobs, IssueFirstPaint(x, why).s.runs.jobs)
  {
    hide Publish, AdvancePast, FirstPaintSkips, SameResults, ReanchorFastJobs;
    SameSelf(x.s.runs.jobs);
    var painted := x.s.(paint := x.s.paint.(firstPaintIssued := true, firstPaintDeadline := None, firstPaintWaiting := {}));
    ReanchorSame(AdvanceDisplay(painted));
  }

  lemma ReanchorSame(s: State)
    ensures SameResults(s.runs.jobs, ReanchorFastJobs(s).runs.jobs)
  {
  }

  lemma {:induction false} StartEachSame(x: Step, cs: seq<Candidate>)
    requires Listed(x.s.runs.jobs, cs)
    ensures SameResults(x.s.runs.jobs, StartEach(x, cs).s.runs.jobs)
  {
    hide StartOne, SameResults;
    if cs == [] {
      SameSelf(x.s.runs.jobs);
    } else {
      var last := |cs| - 1;
      var y := StartEach(x, cs[..last]);
      StartEachSame(x, cs[..last]);
      StartOneSame(y, cs[last].id);
      SameChain(x.s.runs.jobs, y.s.runs.jobs, StartOne(y, cs[last].id).s.runs.jobs);
    }
  }

  lemma SameSelf(jobs: JobTable)
    ensures SameResults(jobs, jobs)
  {
  }

  lemma StartOneSame(x: Step, id: JobId)
    requires id in x.s.runs.jobs
    ensures SameResults(x.s.runs.jobs, StartOne(x, id).s.runs.jobs)
  {
    hide TicketFor;
    TicketJob(x.s, id);
  }

  lemma SettleSame(x: Step, d: EventDisposition)
    ensures SameResults(x.s.runs.jobs, Settle(x, d).s.runs.jobs)
  {
    hide StartEach, NextWake, CandidatesInOrder, Candidates;
    CandidatesListed(x.s);
    StartEachSame(x, CandidatesInOrder(Candidates(x.s)));
  }

  lemma AppliedFinishes(s: State, e: SchedulerEvent, t: JobTicket)
    requires Applies(s, e, t) && EarlyRejection(s, e).None?
    ensures var s' := s.(now := e.at);
      Finishes(TimeFirst(s').s, t)
      && Apply(s', e) == (FinishJob(TimeFirst(s'), t, e.completion, e.notificationReady), Accepted)
  {
    hide Settle, SortActions, EarlyRejection, TimeFirst, Finishes, FinishJob, FinishCancellation;
    HandleIsSettled(s, e);
  }

  lemma FinishTail(x: Step, t: JobTicket, completion: CompletionKind, ready: bool)
    requires Finishes(x.s, t)
    ensures GentleStep(LandRun(x.s, t, completion), FinishJob(x, t, completion, ready).s)
  {
    hide GentleStep, LandRun, CompletionActions, IssueFirstPaint, Publish;
    var y := Step(LandRun(x.s, t, completion), x.acts + CompletionActions(x.s, t, completion, ready));
    StepSelf(y.s, y.s);
    FirstPaintGentle(y, FirstPaintReady);
    var z := PaintWhenReady(y);
    StepSelf(z.s, RefreshWhenReady(z).s);
    StepChain(y.s, z.s, RefreshWhenReady(z).s);
  }

  /** A recorded result changes exactly its own job's sample, failure count, retry and baseline request; a
      confirmed absence also takes the samples of the histories drawn from that job. */
  lemma ResultChangesOnlyItsJob(s: State, e: SchedulerEvent, t: JobTicket)
    requires Applies(s, e, t)
    ensures Recorded(s.runs.jobs, t, e.completion, e.at, Handle(s, e).s.runs.jobs)
  {
    hide Handle, Apply, Settle, EarlyRejection, TimeFirst, FinishJob, CompletedJobs, Recorded, HistoryOk, Sourced, Cancelling,
         Untouched, SameResults;
    AcceptedIsNotEarly(s, e);
    AppliedFinishes(s, e, t);
    var s' := s.(now := e.at);
    var x := TimeFirst(s');
    var y := FinishJob(x, t, e.completion, e.notificationReady);
    TimeFirstGentle(s');
    CompletedIsRecorded(x.s.runs.jobs, t, e.completion, x.s.now);
    FinishTailSame(x, t, e.completion, e.notificationReady);
    SettleSame(y, Accepted);
    HandleIsSettled(s, e);
    var landed, out := CompletedJobs(x.s.runs.jobs, t, e.completion, x.s.now), Settle(y, Accepted).s.runs.jobs;
    SameChain(landed, y.s.runs.jobs, out);
    RecordedFrame(s.runs.jobs, x.s.runs.jobs, landed, out, t, e.completion, e.at);
  }

  lemma SameChain(a: JobTable, b: JobTable, c: JobTable)
    requires SameResults(a, b) && SameResults(b, c)
    ensures SameResults(a, c)
  {
  }

  // ----- the history invariant over whole runs

  predicate AllWellFormed(specs: seq<JobSpec>) {
    forall i :: 0 <= i < |specs| ==> WellFormed(specs[i])
  }

  /** The job lists an event carries respect what `mark_pending` demands. */
  predicate WellFormedEvent(e: SchedulerEvent) {
    match e
    case Startup(_, config, _) => AllWellFormed(config.jobs)
    case ConfigChanged(_, config) => AllWellFormed(config.jobs)
    case InventoryChanged(_, update) => AllWellFormed(update.jobs)
    case _ => true
  }

  lemma CompletedHistory(jobs: JobTable, t: JobTicket, completion: CompletionKind, now: Time)
    requires t.job in jobs && HistoryOk(jobs, now)
    ensures HistoryOk(CompletedJobs(jobs, t, completion, now), now)
  {
    hide OnGrid, RetryDelay, WellFormed;
  }

  lemma NewRuntimeHistory(spec: JobSpec, now: Time, display: Time, at: Time)
    ensures HistoryTimes(NewRuntime(spec, now, display), at) && NewRuntime(spec, now, display).spec == spec
  {
    hide OnGrid;
  }

  lemma {:induction false} TableHistory(specs: seq<JobSpec>, anchor: Time, display: Time, now: Time)
    requires AllWellFormed(specs)
    ensures HistoryOk(TableOf(specs, anchor, display), now)
  {
    hide HistoryTimes, WellFormed, NewRuntime;
    if specs != [] {
      TableHistory(specs[..|specs| - 1], anchor, display, now);
      NewRuntimeHistory(specs[|specs| - 1], anchor, display, now);
    }
  }

  lemma CarriedHistory(prior: JobRuntime, spec: JobSpec, now: Time, display: Time)
    requires HistoryTimes(prior, now)
    ensures HistoryTimes(Carried(prior, spec, now, display), now) && Carried(prior, spec, now, display).spec == spec
  {
    hide OnGrid, NewRuntime, SourceChanged;
    NewRuntimeHistory(spec, now, display, now);
  }

  lemma {:induction false} ReplaceEachHistory(r: Replacement, specs: seq<JobSpec>, now: Time, display: Time, reason: CancelReason)
    requires HistoryOk(r.previous, now) && HistoryOk(r.table, now) && AllWellFormed(specs)
    ensures var q := ReplaceEach(r, specs, now, display, reason); HistoryOk(q.previous, now) && HistoryOk(q.table, now)
  {
    hide HistoryOk, WellFormed, ReplaceOne;
    if specs != [] {
      var last := |specs| - 1;
      ReplaceEachHistory(r, specs[..last], now, display, reason);
      ReplaceOneHistory(ReplaceEach(r, specs[..last], now, display, reason), specs[last], now, display, reason);
    }
  }

  lemma ReplaceOneHistory(r: Replacement, spec: JobSpec, now: Time, display: Time, reason: CancelReason)
    requires HistoryOk(r.previous, now) && HistoryOk(r.table, now) && WellFormed(spec)
    ensures var q := ReplaceOne(r, spec, now, display, reason); HistoryOk(q.previous, now) && HistoryOk(q.table, now)
  {
    hide HistoryTimes, WellFormed, NewRuntime, Carried, ClearedMetrics, SourceChanged;
    NewRuntimeHistory(spec, now, display, now);
    if spec.id in r.previous {
      CarriedHistory(r.previous[spec.id], spec, now, display);
    }
  }

  lemma BlockersAreNotHistory(jobs: JobTable, demanded: set<JobId>)
    ensures forall id :: id in FirstPaintBlockers(jobs, demanded) && id in jobs ==> jobs[id].spec.timing != History
  {
  }

  lemma ReplaceJobsHistory(x: Step, specs: seq<JobSpec>, reason: CancelReason)
    requires HistoryOk(x.s.runs.jobs, x.s.now) && AllWellFormed(specs)
    ensures var y := ReplaceJobs(x, specs, reason); HistoryOk(y.s.runs.jobs, x.s.now) && y.s.now == x.s.now
  {
    hide HistoryOk, Sourced, Untouched, CancelWhere, ReplaceEach, Marked, FirstPaintBlockers, AllWellFormed, CurrentDemand;
    var x1 := CancelAll(x, reason);
    CancelGentle(x, x.s.runs.jobs.Keys, reason);
    assert HistoryOk(map[], x.s.now) by { EmptyHistory(x.s.now); }
    var r := ReplaceEach(Replacement(x1.s.runs.jobs, map[], x1.acts), specs, x1.s.now, DisplayAnchor(x1.s), reason);
    ReplaceEachHistory(Replacement(x1.s.runs.jobs, map[], x1.acts), specs, x1.s.now, DisplayAnchor(x1.s), reason);
    var s2 := WithJobs(x1.s, r.table);
    var blockers := if s2.paint.firstPaintIssued then {} else FirstPaintBlockers(r.table, CurrentDemand(s2));
    BlockersAreNotHistory(r.table, CurrentDemand(s2));
    MarkedIsGentle(r.table, blockers, x1.s.now);
  }

  lemma EmptyHistory(now: Time)
    ensures HistoryOk(map[], now)
  {
  }

  lemma DiscoveryIsNotHistory(s: State)
    requires HistoryOk(s.runs.jobs, s.now)
    ensures forall id :: id in DiscoveryJobs(s) && id in s.runs.jobs ==> s.runs.jobs[id].spec.timing != History
  {
    hide HistoryTimes, CurrentDemand;
  }

  lemma ReconfigureHistory(x: Step, config: SchedulerConfig)
    requires HistoryOk(x.s.runs.jobs, x.s.now) && AllWellFormed(config.jobs)
    ensures var y := Reconfigure(x, config); HistoryOk(y.s.runs.jobs, x.s.now) && y.s.now == x.s.now
  {
    hide HistoryOk, Sourced, Untouched, ReplaceJobs, Reanchored, RefreshDemand, Marked, DiscoveryJobs, Publish, AllWellFormed;
    var x1 := Step(Reset(x.s, config), x.acts);
    var x2 := ReplaceJobs(x1, config.jobs, ConfigReplaced);
    ReplaceJobsHistory(x1, config.jobs, ConfigReplaced);
    var x3 := Step(ReanchorFastJobs(x2.s), x2.acts);
    if x2.s.paint.nextDisplay.Some? {
      ReanchoredIsGentle(x2.s.runs.jobs, SaturatingSub(x2.s.paint.nextDisplay.value, FAST_PREFETCH), x2.s.now);
    }
    var x4 := RefreshDemand(x3, false);
    RefreshDemandGentle(x3, false);
    DiscoveryIsNotHistory(x4.s);
    MarkedIsGentle(x4.s.runs.jobs, DiscoveryJobs(x4.s), x4.s.now);
  }

  lemma ChangeInventoryHistory(x: Step, update: InventoryUpdate)
    requires HistoryOk(x.s.runs.jobs, x.s.now) && AllWellFormed(update.jobs)
    ensures var y := ChangeInventory(x, update); HistoryOk(y.s.runs.jobs, x.s.now) && y.s.now == x.s.now
  {
    hide HistoryOk, Sourced, Untouched, ReplaceJobs, ActivateJobs, RefreshDemand, AllRetried, AllWellFormed, CurrentDemand, Acknowledges;
    var resumes := Acknowledges(x.s, update);
    var before := CurrentDemand(x.s);
    var s1 := x.s.(settings := x.s.settings.(inventoryGeneration := update.generation, demand := update.demand));
    var x2 := ReplaceJobs(Step(s1, x.acts), update.jobs, SourceReplaced);
    ReplaceJobsHistory(Step(s1, x.acts), update.jobs, SourceReplaced);
    var s3 := if resumes then x2.s.(handshake := x2.s.handshake.(awaiting := None)) else x2.s;
    var s4 := ActivateJobs(s3, before, CurrentDemand(s3), s3.view.effectivePresented);
    ActivateGentle(s3, before, CurrentDemand(s3), s3.view.effectivePresented);
    var x5 := RefreshDemand(Step(s4, x2.acts), false);
    RefreshDemandGentle(Step(s4, x2.acts), false);
    RetriedIsGentle(x5.s.runs.jobs, CurrentDemand(x5.s), x5.s.now);
  }

  lemma StartUpHistory(x: Step, config: SchedulerConfig, inventory: nat)
    requires AllWellFormed(config.jobs)
    ensures var y := StartUp(x, config, inventory); HistoryOk(y.s.runs.jobs, x.s.now) && y.s.now == x.s.now
  {
    hide HistoryOk, Sourced, Untouched, Marked, IssueFirstPaint, TableOf, CurrentDemand, Sampling, StartupPanel, AllWellFormed;
    var s1 := Started(x.s, config, inventory);
    TableHistory(config.jobs, x.s.now, x.s.now + config.displayInterval, x.s.now);
    var wanted := Sampling(CurrentDemand(s1), s1.runs.jobs);
    SamplingAreNotHistory(CurrentDemand(s1), s1.runs.jobs);
    MarkedIsGentle(s1.runs.jobs, wanted, x.s.now);
    var waiting := s1.paint.firstPaintWaiting + StartupPanel(wanted, s1.runs.jobs);
    var x2 := Step(MarkJobs(s1, wanted).(paint := s1.paint.(firstPaintWaiting := waiting)), x.acts);
    FirstPaintGentle(x2, FirstPaintReady);
  }

  lemma ReloadHistory(s: State, e: SchedulerEvent)
    requires Reloads(e) && WellFormedEvent(e) && HistoryOk(s.runs.jobs, s.now)
    ensures var x := Apply(s, e).0; HistoryOk(x.s.runs.jobs, s.now) && x.s.now == s.now
  {
    hide HistoryOk, StartUp, Reconfigure, ChangeInventory, AllWellFormed;
    var x := Step(s, []);
    match e
    case Startup(_, config, inventory) => StartUpHistory(x, config, inventory);
    case ConfigChanged(_, config) => ReconfigureHistory(x, config);
    case InventoryChanged(_, update) => ChangeInventoryHistory(x, update);
  }

  lemma AppliedHistory(s: State, e: SchedulerEvent, t: JobTicket)
    requires Applies(s, e, t) && EarlyRejection(s, e).None?
    requires HistoryOk(s.runs.jobs, e.at)
    ensures HistoryOk(Handle(s, e).s.runs.jobs, Handle(s, e).s.now)
  {
    hide Handle, Apply, Settle, EarlyRejection, TimeFirst, FinishJob, CompletedJobs, HistoryOk, Untouched, Sourced, Cancelling;
    AppliedFinishes(s, e, t);
    var s' := s.(now := e.at);
    var x := TimeFirst(s');
    var y := FinishJob(x, t, e.completion, e.notificationReady);
    TimeFirstGentle(s');
    CompletedHistory(x.s.runs.jobs, t, e.completion, x.s.now);
    FinishTail(x, t, e.completion, e.notificationReady);
    SettleGentle(y, Accepted);
    HandleIsSettled(s, e);
  }

  /** One event with well-formed job lists keeps every pending history deadline in order. */
  lemma HandleKeepsHistory(s: State, e: SchedulerEvent)
    requires Inv(s) && WellFormedEvent(e) && HistoryOk(s.runs.jobs, s.now)
    ensures HistoryOk(Handle(s, e).s.runs.jobs, Handle(s, e).s.now)
  {
    hide Handle, Apply, Settle, EarlyRejection, HistoryOk, Untouched, Sourced, Applies, Inv, TimeFirst, Finishes, Cancelling, ArmOk, WellFormedEvent, Reloads;
    if EarlyRejection(s, e).Some? {
      HandleRejected(s, e);
    } else {
      ApplyFollows(s, e);
      LaterHistory(s.runs.jobs, s.now, e.at);
      var s' := s.(now := e.at);
      if Reloads(e) {
        var (x, d) := Apply(s', e);
        ReloadHistory(s', e);
        SettleGentle(x, d);
        HandleIsSettled(s, e);
      } else if e.JobFinished? && Applies(s, e, e.ticket) {
        AppliedHistory(s, e, e.ticket);
      } else {
        if e.JobFinished? { UnappliedUnfinished(s, e); }
        QuietHandle(s, e);
      }
    }
  }

  /** Over every run of well-formed events, a pending history deadline is a point of its job's cadence
      grid, `pendingSince <= deadline <= now`, and before the job's next deadline. */
  lemma {:induction false} RunKeepsHistory(events: seq<SchedulerEvent>)
    requires forall i :: 0 <= i < |events| ==> WellFormedEvent(events[i])
    ensures var s := Run(INITIAL, events); HistoryOk(s.runs.jobs, s.now)
  {
    hide Handle, Inv, HistoryOk, WellFormedEvent;
    if events == [] {
      EmptyHistory(0);
    } else {
      var last := |events| - 1;
      RunKeepsHistory(events[..last]);
      InitialInvariant();
      RunKeepsInvariant(INITIAL, events[..last]);
      HandleKeepsHistory(Run(INITIAL, events[..last]), events[last]);
    }
  }
}
