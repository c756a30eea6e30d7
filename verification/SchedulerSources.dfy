/** When a pending history deadline has a sample behind it, and what a started history run carries. */
module SchedulerSources {
  import opened Wrappers
  import opened SchedulerPolicy
  import opened SchedulerModel
  import opened SchedulerSpec
  import opened SchedulerSafety
  import opened SchedulerInvariant
  import opened SchedulerDispatch
  import opened SchedulerRuns
  import opened SchedulerHistory
  import opened SchedulerResults

  /** The same pending deadlines over the same samples. */
  ghost predicate SamePending(a: JobTable, b: JobTable) {
    && a.Keys == b.Keys
    && forall id :: id in a ==>
         && b[id].spec == a[id].spec && b[id].hasSample == a[id].hasSample
         && b[id].pendingHistoryDeadline == a[id].pendingHistoryDeadline
  }

  lemma SamePendingSourced(a: JobTable, b: JobTable)
    requires SamePending(a, b)
    ensures Sourced(a) <==> Sourced(b)
  {
    assert forall id :: id in a ==> (HistoryReady(a[id].spec, a) <==> HistoryReady(b[id].spec, b));
  }

  // ----- what dispatch does to a pending deadline

  ghost predicate EntriesStarted(x: Step, y: Step) {
    && y.s.runs.jobs.Keys == x.s.runs.jobs.Keys
    && (forall t :: Starts(y.acts, t) ==>
          && t.job in x.s.runs.jobs && t.job.owner in y.s.runs.inFlightOwners
          && t.historyDeadline == x.s.runs.jobs[t.job].pendingHistoryDeadline
          && y.s.runs.jobs[t.job].pendingHistoryDeadline.None?)
    && (forall id :: id in x.s.runs.jobs ==>
          y.s.runs.jobs[id] == x.s.runs.jobs[id] || (id.owner in y.s.runs.inFlightOwners && IsStarted(y.acts, id)))
  }

  ghost predicate IsStarted(acts: seq<SchedulerAction>, id: JobId) {
    exists t :: Starts(acts, t) && t.job == id
  }

  lemma StartOneEntries(x: Step, y: Step, id: JobId)
    requires EntriesStarted(x, y) && id in y.s.runs.jobs
    ensures EntriesStarted(x, StartOne(y, id))
  {
    if id.owner !in y.s.runs.inFlightOwners {
      var z := StartOne(y, id);
      var t := TicketFor(y.s, id);
      TicketJob(y.s, id);
      assert forall u :: Starts(z.acts, u) <==> Starts(y.acts, u) || u == t;
      assert y.s.runs.jobs[id] == x.s.runs.jobs[id];
      forall j | j in x.s.runs.jobs && IsStarted(y.acts, j)
        ensures IsStarted(z.acts, j)
      {
        var u :| Starts(y.acts, u) && u.job == j;
        assert Starts(z.acts, u);
      }
      assert IsStarted(z.acts, id) by { assert Starts(z.acts, t); }
    }
  }

  lemma {:induction false} StartEachEntries(x: Step, cs: seq<Candidate>)
    requires Listed(x.s.runs.jobs, cs) && (forall a :: a in x.acts ==> !a.StartJob?)
    ensures EntriesStarted(x, StartEach(x, cs))
  {
    hide EntriesStarted, StartOne;
    if cs == [] {
      NothingEntered(x);
    } else {
      StartEachEntries(x, cs[..|cs| - 1]);
      StartOneEntries(x, StartEach(x, cs[..|cs| - 1]), cs[|cs| - 1].id);
    }
  }

  lemma NothingEntered(x: Step)
    requires forall a :: a in x.acts ==> !a.StartJob?
    ensures EntriesStarted(x, x)
  {
  }

  lemma DispatchEntries(x: Step)
    requires forall a :: a in x.acts ==> !a.StartJob?
    ensures EntriesStarted(x, Dispatch(x))
  {
    hide EntriesStarted, StartEach, Candidates, CandidatesInOrder;
    NothingEntered(x);
    CandidatesListed(x.s);
    StartEachEntries(x, CandidatesInOrder(Candidates(x.s)));
  }

  /** Dispatch neither repairs nor breaks a pending deadline's source: it only takes deadlines that
      have one. */
  lemma DispatchSourced(x: Step)
    requires Occupancy(x.s.runs) && HistoryOk(x.s.runs.jobs, x.s.now) && (forall a :: a in x.acts ==> !a.StartJob?)
    ensures Sourced(Dispatch(x).s.runs.jobs) <==> Sourced(x.s.runs.jobs)
  {
    hide Occupancy, Dispatch, HistoryTimes, WellFormed, CandidateLess, RankOf, Launched;
    DispatchStartsTheBest(x);
    DispatchEntries(x);
    var y := Dispatch(x);
    var a, b := x.s.runs.jobs, y.s.runs.jobs;
    assert OnlyRuns(x.s, y.s) by { LaunchedIsOnlyRuns(x, y); }
    forall id | id in a
      ensures HistoryReady(a[id].spec, a) <==> HistoryReady(b[id].spec, b)
    {
    }
    forall id | id in a && a[id].pendingHistoryDeadline.Some? && b[id] != a[id]
      ensures HistoryReady(a[id].spec, a)
    {
      assert IsStarted(y.acts, id);
      var t :| Starts(y.acts, t) && t.job == id;
      assert Startable(x.s, id);
      PendingIsHistory(a, x.s.now, id);
    }
  }

  lemma LaunchedIsOnlyRuns(x: Step, y: Step)
    requires Launched(x, y)
    ensures OnlyRuns(x.s, y.s)
  {
    hide Occupancy;
  }

  lemma PendingIsHistory(jobs: JobTable, now: Time, id: JobId)
    requires HistoryOk(jobs, now) && id in jobs && jobs[id].pendingHistoryDeadline.Some?
    ensures jobs[id].spec.timing == History
  {
    hide OnGrid;
  }

  lemma SettleSourced(x: Step, d: EventDisposition)
    requires Occupancy(x.s.runs) && HistoryOk(x.s.runs.jobs, x.s.now) && (forall a :: a in x.acts ==> !a.StartJob?)
    ensures Sourced(Settle(x, d).s.runs.jobs) <==> Sourced(x.s.runs.jobs)
  {
    hide Occupancy, Dispatch, HistoryOk, Sourced, NextWake;
    DispatchSourced(x);
  }

  // ----- events that keep pending deadlines sourced

  lemma ArmGivesSettle(s: State, x: Step, gone: Option<JobTicket>)
    requires ArmOk(s, x, gone)
    ensures Occupancy(x.s.runs) && x.s.now == s.now && (forall a :: a in x.acts ==> !a.StartJob?)
  {
    hide Occupancy;
  }

  /** Every event except a reload of the job table or a confirmed absence keeps a sample behind each
      pending history deadline. */
  lemma QuietKeepsSourced(s: State, e: SchedulerEvent)
    requires HistoryOk(s.runs.jobs, s.now) && Sourced(s.runs.jobs) && Inv(s)
    requires !Reloads(e) && (e.JobFinished? ==> e.completion != ConfirmedAbsent || !Applies(s, e, e.ticket))
    ensures Sourced(Handle(s, e).s.runs.jobs)
  {
    hide Handle, Inv, EarlyRejection, HistoryOk, Sourced, Applies, Untouched, Cancelling, Finishes, TimeFirst, Reloads, ArmOk, Apply;
    if EarlyRejection(s, e).Some? {
      HandleRejected(s, e);
    } else {
      ApplyFollows(s, e);
      LaterHistory(s.runs.jobs, s.now, e.at);
      if e.JobFinished? && Applies(s, e, e.ticket) {
        ResultKeepsSourced(s, e, e.ticket);
      } else {
        if e.JobFinished? { UnappliedUnfinished(s, e); }
        QuietHandle(s, e);
      }
    }
  }

  lemma CompletedSourced(jobs: JobTable, t: JobTicket, completion: CompletionKind, now: Time)
    requires t.job in jobs && Sourced(jobs) && completion != ConfirmedAbsent
    ensures Sourced(CompletedJobs(jobs, t, completion, now))
  {
    hide RetryDelay;
    var b := CompletedJobs(jobs, t, completion, now);
    forall id | id in b && b[id].pendingHistoryDeadline.Some?
      ensures HistoryReady(b[id].spec, b)
    {
      assert HistoryReady(jobs[id].spec, jobs);
    }
  }

  lemma ResultKeepsSourced(s: State, e: SchedulerEvent, t: JobTicket)
    requires EarlyRejection(s, e).None? && Applies(s, e, t) && e.completion != ConfirmedAbsent
    requires HistoryOk(s.runs.jobs, e.at) && Sourced(s.runs.jobs)
    ensures Sourced(Handle(s, e).s.runs.jobs)
  {
    hide Handle, Apply, Settle, EarlyRejection, TimeFirst, FinishJob, CompletedJobs, HistoryOk, Untouched, Sourced, Cancelling;
    AppliedFinishes(s, e, t);
    var s' := s.(now := e.at);
    var x := TimeFirst(s');
    var y := FinishJob(x, t, e.completion, e.notificationReady);
    TimeFirstGentle(s');
    CompletedHistory(x.s.runs.jobs, t, e.completion, x.s.now);
    CompletedSourced(x.s.runs.jobs, t, e.completion, x.s.now);
    FinishTail(x, t, e.completion, e.notificationReady);
    SettleGentle(y, Accepted);
    HandleIsSettled(s, e);
  }

  // ----- a confirmed absence

  /** Some pending history is drawn from a job that is itself drawn from `absent`. */
  predicate Chained(jobs: JobTable, absent: JobId) {
    exists id :: id in jobs && jobs[id].pendingHistoryDeadline.Some? && jobs[id].spec.historySource != Some(absent)
      && jobs[id].spec.historySource.Some? && jobs[id].spec.historySource.value in Dependents(jobs, absent)
  }

  lemma AbsenceSourced(jobs: JobTable, t: JobTicket, now: Time)
    requires t.job in jobs && Sourced(jobs)
    ensures Sourced(CompletedJobs(jobs, t, ConfirmedAbsent, now)) <==> !Chained(jobs, t.job)
  {
    var landed := jobs[t.job := Completed(jobs[t.job], ConfirmedAbsent, now)];
    var b := CompletedJobs(jobs, t, ConfirmedAbsent, now);
    assert Dependents(landed, t.job) == Dependents(jobs, t.job);
    if Chained(jobs, t.job) {
      var id :| id in jobs && jobs[id].pendingHistoryDeadline.Some? && jobs[id].spec.historySource != Some(t.job)
        && jobs[id].spec.historySource.Some? && jobs[id].spec.historySource.value in Dependents(jobs, t.job);
      assert b[id].pendingHistoryDeadline.Some? && !HistoryReady(b[id].spec, b);
    } else {
      forall id | id in b && b[id].pendingHistoryDeadline.Some?
        ensures HistoryReady(b[id].spec, b)
      {
        assert HistoryReady(jobs[id].spec, jobs);
      }
    }
  }

  lemma FirstPaintPending(x: Step, why: PublishReason)
    ensures SamePending(x.s.runs.jobs, IssueFirstPaint(x, why).s.runs.jobs)
  {
    hide Publish, AdvancePast, FirstPaintSkips;
  }

  lemma FinishTailPending(x: Step, t: JobTicket, completion: CompletionKind, ready: bool)
    requires Finishes(x.s, t)
    ensures SamePending(LandRun(x.s, t, completion).runs.jobs, FinishJob(x, t, completion, ready).s.runs.jobs)
  {
    hide LandRun, CompletionActions, Publish, IssueFirstPaint;
    FirstPaintPending(Step(LandRun(x.s, t, completion), x.acts + CompletionActions(x.s, t, completion, ready)), FirstPaintReady);
  }

  /** The tooltip's grace period is over at `at`. */
  predicate GraceEnds(s: State, at: Time) {
    Due(s.view.deactivationDeadline, at) && !s.view.presented
  }

  function DemandAt(s: State, at: Time): set<JobId> {
    s.settings.demand.Demanded(s.view.effectivePresented && !GraceEnds(s, at), s.view.selectedPage)
  }

  /** The job has a pending history deadline once the time up to `at` has been processed. */
  predicate PendingAt(s: State, at: Time, id: JobId)
    requires id in s.runs.jobs
  {
    var rt, demanded := s.runs.jobs[id], id in DemandAt(s, at);
    (rt.pendingHistoryDeadline.Some? && (GraceEnds(s, at) ==> demanded))
    || (demanded && rt.spec.timing == History && Due(rt.nominalDue, at) && HistoryReady(rt.spec, s.runs.jobs))
  }

  /** The same histories, with the same deadlines, over the same samples. */
  ghost predicate SameHistories(a: JobTable, b: JobTable) {
    && SamePending(a, b)
    && forall id :: id in a && a[id].spec.timing == History ==> b[id].nominalDue == a[id].nominalDue
  }

  lemma FirstPaintHistories(x: Step)
    ensures var y := ExpireFirstPaint(x).s;
      SameHistories(x.s.runs.jobs, y.runs.jobs) && y.settings == x.s.settings && y.view == x.s.view && y.now == x.s.now
  {
    hide IssueFirstPaint;
    IssuedHistories(x, FirstPaintTimeout);
  }

  lemma IssuedHistories(x: Step, why: PublishReason)
    ensures var y := IssueFirstPaint(x, why).s;
      SameHistories(x.s.runs.jobs, y.runs.jobs) && y.settings == x.s.settings && y.view == x.s.view && y.now == x.s.now
  {
    hide Publish, AdvancePast, FirstPaintSkips, Reanchored, SameHistories;
    ReanchoredHistories(x.s.runs.jobs);
  }

  lemma ReanchoredHistories(jobs: JobTable)
    ensures SameHistories(jobs, jobs)
    ensures forall due :: SameHistories(jobs, Reanchored(jobs, due))
  {
  }

  lemma LaterTimersKeepJobs(x: Step)
    ensures var y := DisplayTick(ExpireActivation(x)).s;
      && y.runs == x.s.runs && y.settings == x.s.settings && y.now == x.s.now
      && y.view.effectivePresented == x.s.view.effectivePresented && y.view.selectedPage == x.s.view.selectedPage
  {
    hide Publish, AdvancePast, SkippedIntervals;
  }

  lemma GraceHistories(x: Step, id: JobId)
    requires id in x.s.runs.jobs
    ensures var y := ExpireDeactivation(x).s;
      && y.now == x.s.now && CurrentDemand(y) == DemandAt(x.s, x.s.now)
      && y.runs.jobs.Keys == x.s.runs.jobs.Keys
      && var was, rt := x.s.runs.jobs[id], y.runs.jobs[id];
      && rt.spec == was.spec && rt.hasSample == was.hasSample && rt.nominalDue == was.nominalDue
      && rt.pendingHistoryDeadline
           == if GraceEnds(x.s, x.s.now) && id !in DemandAt(x.s, x.s.now) then None else was.pendingHistoryDeadline
  {
    hide Moved, AddTickets, CancelActions, DemandPlan.Demanded, Landed, DemandRefreshed, Rested, PageWork;
    var demanded := DemandAt(x.s, x.s.now);
    RefreshedHistory(x.s.runs.jobs, demanded, PageWork(x.s.runs.jobs.Keys - demanded), x.s.now, id);
  }

  lemma RefreshedHistory(jobs: JobTable, demanded: set<JobId>, ended: set<JobId>, now: Time, id: JobId)
    requires id in jobs
    ensures var after := Landed(DemandRefreshed(jobs, demanded, now), ended);
      && after.Keys == jobs.Keys
      && after[id].spec == jobs[id].spec && after[id].hasSample == jobs[id].hasSample
      && after[id].nominalDue == jobs[id].nominalDue
      && after[id].pendingHistoryDeadline == if id !in demanded then None else jobs[id].pendingHistoryDeadline
  {
  }

  lemma TimedPending(rt: JobRuntime, ready: bool, now: Time)
    requires rt.spec.timing != History ==> rt.pendingHistoryDeadline.None?
    ensures TimedRuntime(rt, ready, now).pendingHistoryDeadline.Some? <==>
      rt.pendingHistoryDeadline.Some? || (rt.spec.timing == History && Due(rt.nominalDue, now) && ready)
  {
    hide AdvancePast, LatestDueAtOrBefore;
  }

  lemma SameReady(a: JobTable, b: JobTable, spec: JobSpec)
    requires Untouched(a, b)
    ensures HistoryReady(spec, a) <==> HistoryReady(spec, b)
  {
  }

  lemma SameReadyPending(a: JobTable, b: JobTable, spec: JobSpec)
    requires SamePending(a, b)
    ensures HistoryReady(spec, a) <==> HistoryReady(spec, b)
  {
  }

  /** One job once the surface timers have been looked at. */
  lemma PendingAfterTimers(x: Step, id: JobId)
    requires id in x.s.runs.jobs
    ensures var y := ExpireTimers(x).s; var was := x.s.runs.jobs[id];
      && y.now == x.s.now && CurrentDemand(y) == DemandAt(x.s, x.s.now) && y.runs.jobs.Keys == x.s.runs.jobs.Keys
      && var rt := y.runs.jobs[id];
      && rt.spec == was.spec && (was.spec.timing == History ==> rt.nominalDue == was.nominalDue)
      && (HistoryReady(was.spec, y.runs.jobs) <==> HistoryReady(was.spec, x.s.runs.jobs))
      && rt.pendingHistoryDeadline
           == if GraceEnds(x.s, x.s.now) && id !in DemandAt(x.s, x.s.now) then None else was.pendingHistoryDeadline
  {
    hide ExpireDeactivation, ExpireFirstPaint, ExpireActivation, DisplayTick, HistoryReady, GraceEnds, DemandAt, Kept, Untouched;
    var a := ExpireDeactivation(x);
    var b := ExpireFirstPaint(a);
    GraceHistories(x, id);
    FirstPaintHistories(a);
    LaterTimersKeepJobs(b);
    DeactivationGentle(x);
    SameReady(x.s.runs.jobs, a.s.runs.jobs, x.s.runs.jobs[id].spec);
    SameReadyPending(a.s.runs.jobs, b.s.runs.jobs, x.s.runs.jobs[id].spec);
  }

  /** What `PendingAt` foresees is what the processed time leaves. */
  lemma PendingAfterTime(s: State, at: Time, id: JobId)
    requires s.lifecycle == Running && HistoryOk(s.runs.jobs, at) && id in s.runs.jobs
    ensures var after := TimeFirst(s.(now := at)).s.runs.jobs;
      && after.Keys == s.runs.jobs.Keys && after[id].spec == s.runs.jobs[id].spec
      && (after[id].pendingHistoryDeadline.Some? <==> PendingAt(s, at, id))
  {
    hide ExpireTimers, TimedRuntime, DemandPlan.Demanded, HistoryTimes, HistoryReady;
    var x := Step(s.(now := at), []);
    var d := ExpireTimers(x).s;
    PendingAfterTimers(x, id);
    var rt := d.runs.jobs[id];
    PendingOnlyHistory(s.runs.jobs, at, id);
    TimedPending(rt, HistoryReady(rt.spec, d.runs.jobs), at);
    TimedSamples(rt, HistoryReady(rt.spec, d.runs.jobs), at);
  }

  lemma PendingOnlyHistory(jobs: JobTable, now: Time, id: JobId)
    requires HistoryOk(jobs, now) && id in jobs
    ensures jobs[id].spec.timing != History ==> jobs[id].pendingHistoryDeadline.None?
  {
    hide OnGrid, WellFormed;
  }

  /** Some history that will be pending at `at` is drawn from a job that is itself drawn from `absent`. */
  predicate ChainedAt(s: State, at: Time, absent: JobId) {
    exists id :: id in s.runs.jobs && PendingAt(s, at, id) && DrawnTwice(s.runs.jobs, id, absent)
  }

  /** `id` is drawn from a job that is itself drawn from `absent`. */
  predicate DrawnTwice(jobs: JobTable, id: JobId, absent: JobId)
    requires id in jobs
  {
    var source := jobs[id].spec.historySource;
    source.Some? && source != Some(absent) && source.value in Dependents(jobs, absent)
  }

  lemma ChainedAfterTime(s: State, at: Time, absent: JobId)
    requires s.lifecycle == Running && HistoryOk(s.runs.jobs, at)
    ensures Chained(TimeFirst(s.(now := at)).s.runs.jobs, absent) <==> ChainedAt(s, at, absent)
  {
    hide TimeFirst, PendingAt, HistoryOk;
    var jobs, after := s.runs.jobs, TimeFirst(s.(now := at)).s.runs.jobs;
    SpecsAfterTime(s.(now := at));
    forall id | id in jobs
      ensures after[id].pendingHistoryDeadline.Some? <==> PendingAt(s, at, id)
      ensures after[id].spec == jobs[id].spec
    {
      PendingAfterTime(s, at, id);
    }
    assert Dependents(after, absent) == Dependents(jobs, absent);
    if Chained(after, absent) {
      var id :| id in after && after[id].pendingHistoryDeadline.Some? && after[id].spec.historySource != Some(absent)
        && after[id].spec.historySource.Some? && after[id].spec.historySource.value in Dependents(after, absent);
      assert DrawnTwice(jobs, id, absent);
    }
  }

  lemma SpecsAfterTime(s: State)
    ensures TimeFirst(s).s.runs.jobs.Keys == s.runs.jobs.Keys
  {
    hide Gentle, TimeFirst;
    TimeFirstGentle(s);
    GentleKeys(s.runs.jobs, TimeFirst(s).s.runs.jobs, s.now);
  }

  lemma GentleKeys(a: JobTable, b: JobTable, now: Time)
    requires Gentle(a, b, now)
    ensures a.Keys == b.Keys
  {
    hide Kept;
  }

  /** A confirmed absence takes the pending deadlines of the histories drawn from that job with it, so
      the rest stay sourced exactly unless one of them is drawn from such a history in turn. */
  lemma AbsenceKeepsSourcedUnlessChained(s: State, e: SchedulerEvent, t: JobTicket)
    requires Inv(s) && HistoryOk(s.runs.jobs, s.now) && Sourced(s.runs.jobs)
    requires Applies(s, e, t) && e.completion == ConfirmedAbsent
    ensures Sourced(Handle(s, e).s.runs.jobs) <==> !ChainedAt(s, e.at, t.job)
  {
    hide Handle, Apply, Settle, EarlyRejection, TimeFirst, FinishJob, CompletedJobs, HistoryOk, Untouched, Sourced, Cancelling,
         Inv, ArmOk, Chained, ChainedAt, SamePending;
    AcceptedIsNotEarly(s, e);
    ApplyFollows(s, e);
    AppliedFinishes(s, e, t);
    LaterHistory(s.runs.jobs, s.now, e.at);
    AppliedIsRunning(s, e, t);
    ChainedAfterTime(s, e.at, t.job);
    var s' := s.(now := e.at);
    var x := TimeFirst(s');
    var y := FinishJob(x, t, e.completion, e.notificationReady);
    TimeFirstGentle(s');
    AbsenceSourced(x.s.runs.jobs, t, x.s.now);
    CompletedHistory(x.s.runs.jobs, t, e.completion, x.s.now);
    FinishTail(x, t, e.completion, e.notificationReady);
    FinishTailPending(x, t, e.completion, e.notificationReady);
    SamePendingSourced(CompletedJobs(x.s.runs.jobs, t, e.completion, x.s.now), y.s.runs.jobs);
    ArmGivesSettle(s', y, Closed(e, Accepted));
    SettleSourced(y, Accepted);
    HandleIsSettled(s, e);
  }

  lemma AppliedIsRunning(s: State, e: SchedulerEvent, t: JobTicket)
    requires Applies(s, e, t) && EarlyRejection(s, e).None?
    ensures s.lifecycle == Running
  {
    hide Apply, Settle, SortActions, Cancelling, Finishes;
  }

  // ----- a reload of the job table

  ghost predicate DistinctIds(specs: seq<JobSpec>) {
    forall i, j :: 0 <= i < j < |specs| ==> specs[i].id != specs[j].id
  }

  function IdsOf(specs: seq<JobSpec>): set<JobId> {
    set i | 0 <= i < |specs| :: specs[i].id
  }

  lemma NoIds()
    ensures IdsOf([]) == {}
  {
  }

  lemma LastIsNew(specs: seq<JobSpec>)
    requires DistinctIds(specs) && specs != []
    ensures specs[|specs| - 1].id !in IdsOf(specs[..|specs| - 1])
  {
  }

  lemma IdsSplit(specs: seq<JobSpec>)
    requires specs != []
    ensures IdsOf(specs) == IdsOf(specs[..|specs| - 1]) + {specs[|specs| - 1].id}
  {
    var prefix := specs[..|specs| - 1];
    forall id | id in IdsOf(specs)
      ensures id in IdsOf(prefix) + {specs[|specs| - 1].id}
    {
      var i :| 0 <= i < |specs| && specs[i].id == id;
      if i < |specs| - 1 { assert prefix[i].id == id; }
    }
    forall id | id in IdsOf(prefix)
      ensures id in IdsOf(specs)
    {
      var i :| 0 <= i < |prefix| && prefix[i].id == id;
      assert specs[i].id == id;
    }
  }

  function Placed(jobs: JobTable, spec: JobSpec, now: Time, display: Time): JobRuntime {
    if spec.id in jobs then Carried(jobs[spec.id], spec, now, display) else NewRuntime(spec, now, display)
  }

  ghost predicate TableIs(table: JobTable, jobs: JobTable, specs: seq<JobSpec>, now: Time, display: Time) {
    && table.Keys == IdsOf(specs)
    && forall i :: 0 <= i < |specs| ==> specs[i].id in table && table[specs[i].id] == Placed(jobs, specs[i], now, display)
  }

  /** The new table holds one runtime per listed job: carried over when it was known, new otherwise. */
  lemma {:induction false} ReplaceEachTable(jobs: JobTable, acts: seq<SchedulerAction>, specs: seq<JobSpec>,
                                            now: Time, display: Time, reason: CancelReason)
    requires DistinctIds(specs)
    ensures var q := ReplaceEach(Replacement(jobs, map[], acts), specs, now, display, reason);
      TableIs(q.table, jobs, specs, now, display) && q.previous == jobs - IdsOf(specs)
  {
    hide Carried, NewRuntime, ClearedMetrics, SourceChanged, IdsOf;
    if specs == [] {
      assert IdsOf(specs) == {} by { NoIds(); }
      assert jobs - IdsOf(specs) == jobs;
    } else {
      var last := |specs| - 1;
      var prefix := specs[..last];
      ReplaceEachTable(jobs, acts, prefix, now, display, reason);
      IdsSplit(specs);
      assert specs[last].id !in IdsOf(prefix) by { LastIsNew(specs); }
    }
  }

  /** The new list keeps this job's source: listed, known, with a sample, and itself unchanged in source. */
  predicate SourceStays(jobs: JobTable, specs: seq<JobSpec>, spec: JobSpec) {
    spec.historySource.None?
    || exists j :: 0 <= j < |specs| && specs[j].id == spec.historySource.value && specs[j].id in jobs
         && jobs[specs[j].id].hasSample && !SourceChanged(jobs[specs[j].id].spec, specs[j])
  }

  predicate KeepsPending(jobs: JobTable, spec: JobSpec, demanded: set<JobId>) {
    spec.id in jobs && jobs[spec.id].spec == spec && jobs[spec.id].pendingHistoryDeadline.Some? && spec.id in demanded
  }

  /** Every pending history that the new list keeps unchanged and still demands keeps its source. */
  predicate SourcesStay(jobs: JobTable, specs: seq<JobSpec>, demanded: set<JobId>) {
    forall i :: 0 <= i < |specs| ==> (KeepsPending(jobs, specs[i], demanded) ==> SourceStays(jobs, specs, specs[i]))
  }

  lemma PlacedPending(jobs: JobTable, spec: JobSpec, now: Time, display: Time)
    ensures var rt := Placed(jobs, spec, now, display);
      && rt.spec == spec
      && rt.hasSample == (spec.id in jobs && jobs[spec.id].hasSample && !SourceChanged(jobs[spec.id].spec, spec))
      && rt.pendingHistoryDeadline
           == if spec.id in jobs && jobs[spec.id].spec == spec then jobs[spec.id].pendingHistoryDeadline else None
  {
  }

  lemma PlacedReady(jobs: JobTable, table: JobTable, specs: seq<JobSpec>, spec: JobSpec, now: Time, display: Time)
    requires TableIs(table, jobs, specs, now, display)
    ensures HistoryReady(spec, table) <==> SourceStays(jobs, specs, spec)
  {
    hide Placed, SourceChanged;
    forall i | 0 <= i < |specs|
      ensures table[specs[i].id].hasSample
        == (specs[i].id in jobs && jobs[specs[i].id].hasSample && !SourceChanged(jobs[specs[i].id].spec, specs[i]))
    {
      PlacedPending(jobs, specs[i], now, display);
    }
  }

  /** The jobs of `a`, with the pending deadlines of demanded jobs only. */
  ghost predicate PendingWithin(a: JobTable, b: JobTable, demanded: set<JobId>) {
    && b.Keys == a.Keys
    && forall id :: id in a ==>
         && b[id].spec == a[id].spec && b[id].hasSample == a[id].hasSample
         && b[id].pendingHistoryDeadline == if id in demanded then a[id].pendingHistoryDeadline else None
  }

  lemma RefreshedSourced(jobs: JobTable, table: JobTable, specs: seq<JobSpec>, now: Time, display: Time,
                         demanded: set<JobId>, b: JobTable)
    requires TableIs(table, jobs, specs, now, display)
    requires PendingWithin(table, b, demanded)
    ensures Sourced(b) <==> SourcesStay(jobs, specs, demanded)
  {
    hide Placed, SourceStays;
    forall i | 0 <= i < |specs|
      ensures var id := specs[i].id;
        && b[id].spec == specs[i]
        && (HistoryReady(b[id].spec, b) <==> SourceStays(jobs, specs, specs[i]))
        && b[id].pendingHistoryDeadline
             == if id in demanded && id in jobs && jobs[id].spec == specs[i] then jobs[id].pendingHistoryDeadline else None
    {
      PlacedPending(jobs, specs[i], now, display);
      PlacedReady(jobs, table, specs, specs[i], now, display);
      assert HistoryReady(specs[i], b) <==> HistoryReady(specs[i], table);
    }
    if Sourced(b) {
      forall i | 0 <= i < |specs| && KeepsPending(jobs, specs[i], demanded)
        ensures SourceStays(jobs, specs, specs[i])
      {
        assert specs[i].id in b;
      }
    }
    if SourcesStay(jobs, specs, demanded) {
      forall id | id in b && b[id].pendingHistoryDeadline.Some?
        ensures HistoryReady(b[id].spec, b)
      {
        var i :| 0 <= i < |specs| && specs[i].id == id;
      }
    }
  }

  lemma SourcesFrame(a: JobTable, b: JobTable, specs: seq<JobSpec>, demanded: set<JobId>)
    requires SamePending(a, b)
    ensures SourcesStay(a, specs, demanded) <==> SourcesStay(b, specs, demanded)
  {
    assert forall spec :: SourceStays(a, specs, spec) <==> SourceStays(b, specs, spec);
  }

  /** The table that `ReplaceJobs` installs, up to pending marks. */
  lemma ReplaceJobsTable(x: Step, specs: seq<JobSpec>, reason: CancelReason)
    requires DistinctIds(specs)
    ensures var y := ReplaceJobs(x, specs, reason).s;
      && y.settings == x.s.settings && y.view.effectivePresented == x.s.view.effectivePresented
      && y.view.selectedPage == x.s.view.selectedPage && y.now == x.s.now
      && exists table :: TableIs(table, Landed(x.s.runs.jobs, x.s.runs.jobs.Keys), specs, x.s.now, DisplayAnchor(x.s))
           && SamePending(table, y.runs.jobs)
  {
    hide Landed, TableIs, CancelActions, Moved, AddTickets, ReplaceEach, InvalidateAll, FirstPaintBlockers, CurrentDemand;
    var x1 := CancelAll(x, reason);
    ReplaceEachTable(x1.s.runs.jobs, x1.acts, specs, x1.s.now, DisplayAnchor(x1.s), reason);
    var r := ReplaceEach(Replacement(x1.s.runs.jobs, map[], x1.acts), specs, x1.s.now, DisplayAnchor(x1.s), reason);
    assert DisplayAnchor(x1.s) == DisplayAnchor(x.s);
    assert TableIs(r.table, Landed(x.s.runs.jobs, x.s.runs.jobs.Keys), specs, x.s.now, DisplayAnchor(x.s));
    assert SamePending(r.table, ReplaceJobs(x, specs, reason).s.runs.jobs);
  }

  lemma LandedPending(jobs: JobTable, which: set<JobId>)
    ensures SamePending(jobs, Landed(jobs, which))
  {
  }

  /** What a refresh after the reload keeps: pending deadlines of demanded jobs only. */
  lemma RefreshedPending(a: JobTable, b: JobTable, c: JobTable, demanded: set<JobId>, now: Time)
    requires SamePending(a, b) && SamePending(DemandRefreshed(b, demanded, now), c)
    ensures PendingWithin(a, c, demanded)
  {
  }

  lemma ReconfigurePending(x: Step, config: SchedulerConfig, x2: Step)
    requires x2 == ReplaceJobs(Step(Reset(x.s, config), x.acts), config.jobs, ConfigReplaced)
    requires x2.s.settings == Reset(x.s, config).settings
    requires x2.s.view.effectivePresented == x.s.view.effectivePresented && x2.s.view.selectedPage == x.s.view.selectedPage
    ensures var demanded := config.demand.Demanded(x.s.view.effectivePresented, x.s.view.selectedPage);
      exists b :: SamePending(x2.s.runs.jobs, b)
        && SamePending(DemandRefreshed(b, demanded, x2.s.now), Reconfigure(x, config).s.runs.jobs)
  {
    hide ReplaceJobs, Publish, DemandRefreshed, SamePending, Marked, Reanchored, DemandPlan.Demanded;
    var x3 := Step(ReanchorFastJobs(x2.s), x2.acts);
    ReanchorPending(x2.s);
    var demanded := config.demand.Demanded(x.s.view.effectivePresented, x.s.view.selectedPage);
    assert CurrentDemand(x3.s) == demanded;
    var x4 := RefreshDemand(x3, false);
    assert x4.s.runs.jobs == DemandRefreshed(x3.s.runs.jobs, demanded, x2.s.now);
    MarkedPending(x4.s.runs.jobs, DiscoveryJobs(x4.s), x4.s.now);
    assert SamePending(x4.s.runs.jobs, Reconfigure(x, config).s.runs.jobs);
  }

  lemma ReanchorPending(s: State)
    ensures SamePending(s.runs.jobs, ReanchorFastJobs(s).runs.jobs)
  {
  }

  lemma MarkedPending(jobs: JobTable, which: set<JobId>, now: Time)
    ensures SamePending(jobs, Marked(jobs, which, now))
  {
  }

  lemma ReconfigureSourced(x: Step, config: SchedulerConfig)
    requires DistinctIds(config.jobs)
    ensures Sourced(Reconfigure(x, config).s.runs.jobs)
       <==> SourcesStay(x.s.runs.jobs, config.jobs, config.demand.Demanded(x.s.view.effectivePresented, x.s.view.selectedPage))
  {
    hide ReplaceJobs, Reconfigure, Sourced, SourcesStay, SamePending, TableIs, DemandRefreshed, Landed;
    var x1 := Step(Reset(x.s, config), x.acts);
    var x2 := ReplaceJobs(x1, config.jobs, ConfigReplaced);
    ReplaceJobsTable(x1, config.jobs, ConfigReplaced);
    ReconfigurePending(x, config, x2);
    var demanded := config.demand.Demanded(x.s.view.effectivePresented, x.s.view.selectedPage);
    var landed := Landed(x.s.runs.jobs, x.s.runs.jobs.Keys);
    var table :| TableIs(table, landed, config.jobs, x.s.now, DisplayAnchor(x1.s)) && SamePending(table, x2.s.runs.jobs);
    var b :| SamePending(x2.s.runs.jobs, b)
      && SamePending(DemandRefreshed(b, demanded, x2.s.now), Reconfigure(x, config).s.runs.jobs);
    PendingChain(table, x2.s.runs.jobs, b);
    RefreshedPending(table, b, Reconfigure(x, config).s.runs.jobs, demanded, x2.s.now);
    RefreshedSourced(landed, table, config.jobs, x.s.now, DisplayAnchor(x1.s), demanded, Reconfigure(x, config).s.runs.jobs);
    LandedPending(x.s.runs.jobs, x.s.runs.jobs.Keys);
    SourcesFrame(x.s.runs.jobs, landed, config.jobs, demanded);
  }

  lemma PendingChain(a: JobTable, b: JobTable, c: JobTable)
    requires SamePending(a, b) && SamePending(b, c)
    ensures SamePending(a, c)
  {
  }

  lemma InventoryPending(x: Step, update: InventoryUpdate, x2: Step)
    requires x2 == ReplaceJobs(Step(x.s.(settings := x.s.settings.(inventoryGeneration := update.generation, demand := update.demand)), x.acts),
                               update.jobs, SourceReplaced)
    requires x2.s.settings.demand == update.demand
    requires x2.s.view.effectivePresented == x.s.view.effectivePresented && x2.s.view.selectedPage == x.s.view.selectedPage
    ensures var demanded := update.demand.Demanded(x.s.view.effectivePresented, x.s.view.selectedPage);
      exists b :: SamePending(x2.s.runs.jobs, b)
        && SamePending(DemandRefreshed(b, demanded, x2.s.now), ChangeInventory(x, update).s.runs.jobs)
  {
    hide ReplaceJobs, DemandRefreshed, Sampling, Acknowledges;
    var resumes := Acknowledges(x.s, update);
    var before := CurrentDemand(x.s);
    var s3 := if resumes then x2.s.(handshake := x2.s.handshake.(awaiting := None)) else x2.s;
    var s4 := ActivateJobs(s3, before, CurrentDemand(s3), s3.view.effectivePresented);
    assert SamePending(x2.s.runs.jobs, s4.runs.jobs);
    var demanded := update.demand.Demanded(x.s.view.effectivePresented, x.s.view.selectedPage);
    assert CurrentDemand(s4) == demanded;
    var x5 := RefreshDemand(Step(s4, x2.acts), false);
    assert x5.s.runs.jobs == DemandRefreshed(s4.runs.jobs, demanded, x2.s.now);
    assert SamePending(x5.s.runs.jobs, ChangeInventory(x, update).s.runs.jobs);
  }

  lemma InventorySourced(x: Step, update: InventoryUpdate)
    requires DistinctIds(update.jobs)
    ensures Sourced(ChangeInventory(x, update).s.runs.jobs)
       <==> SourcesStay(x.s.runs.jobs, update.jobs, update.demand.Demanded(x.s.view.effectivePresented, x.s.view.selectedPage))
  {
    hide ReplaceJobs, ChangeInventory, Sourced, SourcesStay, SamePending, TableIs, DemandRefreshed, Landed;
    var x1 := Step(x.s.(settings := x.s.settings.(inventoryGeneration := update.generation, demand := update.demand)), x.acts);
    var x2 := ReplaceJobs(x1, update.jobs, SourceReplaced);
    ReplaceJobsTable(x1, update.jobs, SourceReplaced);
    InventoryPending(x, update, x2);
    var demanded := update.demand.Demanded(x.s.view.effectivePresented, x.s.view.selectedPage);
    var landed := Landed(x.s.runs.jobs, x.s.runs.jobs.Keys);
    var table :| TableIs(table, landed, update.jobs, x.s.now, DisplayAnchor(x1.s)) && SamePending(table, x2.s.runs.jobs);
    var b :| SamePending(x2.s.runs.jobs, b)
      && SamePending(DemandRefreshed(b, demanded, x2.s.now), ChangeInventory(x, update).s.runs.jobs);
    PendingChain(table, x2.s.runs.jobs, b);
    RefreshedPending(table, b, ChangeInventory(x, update).s.runs.jobs, demanded, x2.s.now);
    RefreshedSourced(landed, table, update.jobs, x.s.now, DisplayAnchor(x1.s), demanded, ChangeInventory(x, update).s.runs.jobs);
    LandedPending(x.s.runs.jobs, x.s.runs.jobs.Keys);
    SourcesFrame(x.s.runs.jobs, landed, update.jobs, demanded);
  }

  /** The jobs a reload lists, and what it will demand. */
  function ReloadedJobs(e: SchedulerEvent): seq<JobSpec>
    requires e.ConfigChanged? || e.InventoryChanged?
  {
    if e.ConfigChanged? then e.config.jobs else e.update.jobs
  }

  function ReloadedDemand(s: State, e: SchedulerEvent): set<JobId>
    requires e.ConfigChanged? || e.InventoryChanged?
  {
    (if e.ConfigChanged? then e.config.demand else e.update.demand).Demanded(s.view.effectivePresented, s.view.selectedPage)
  }

  /** A configuration or inventory change keeps a sample behind every pending history deadline exactly
      when each such history that it keeps unchanged and demanded keeps its source, unchanged and sampled. */
  lemma ReloadKeepsSourcedIffSourcesStay(s: State, e: SchedulerEvent)
    requires Inv(s) && HistoryOk(s.runs.jobs, s.now) && WellFormedEvent(e) && EarlyRejection(s, e).None?
    requires (e.ConfigChanged? || e.InventoryChanged?) && DistinctIds(ReloadedJobs(e))
    ensures Sourced(Handle(s, e).s.runs.jobs) <==> SourcesStay(s.runs.jobs, ReloadedJobs(e), ReloadedDemand(s, e))
  {
    hide Handle, Settle, EarlyRejection, HistoryOk, Sourced, Inv, ArmOk, SourcesStay, Reconfigure, ChangeInventory, AllWellFormed, DistinctIds;
    ApplyFollows(s, e);
    LaterHistory(s.runs.jobs, s.now, e.at);
    var s' := s.(now := e.at);
    var (x, d) := Apply(s', e);
    ReloadHistory(s', e);
    if e.ConfigChanged? { ReconfigureSourced(Step(s', []), e.config); }
    else { InventorySourced(Step(s', []), e.update); }
    ArmGivesSettle(s', x, Closed(e, d));
    SettleSourced(x, d);
    HandleIsSettled(s, e);
  }

  // ----- what a started history run carries

  /** Every history run that starts carries one of its own grid points, not in the future and before
      the job's next deadline, and its source has a sample; no other run carries a deadline. */
  lemma StartedHistoryIsSourced(s: State, e: SchedulerEvent, t: JobTicket)
    requires Inv(s) && WellFormedEvent(e) && HistoryOk(s.runs.jobs, s.now)
    requires Starts(Handle(s, e).acts, t)
    ensures var out := Handle(s, e).s;
      && t.job in out.runs.jobs
      && var rt := out.runs.jobs[t.job];
      && (rt.spec.timing != History ==> t.historyDeadline.None?)
      && (rt.spec.timing == History ==>
            && t.historyDeadline.Some? && rt.nominalDue.Some? && t.historyDeadline.value <= out.now
            && HistoryReady(rt.spec, out.runs.jobs)
            && (rt.spec.freshness > 0 ==>
                  t.historyDeadline.value < rt.nominalDue.value
                  && OnGrid(t.historyDeadline.value, rt.spec.freshness, rt.nominalDue.value)))
  {
    hide Handle, Apply, Settle, EarlyRejection, HistoryOk, Inv, ArmOk, SortActions, OnGrid, WellFormedEvent;
    if EarlyRejection(s, e).Some? { HandleRejected(s, e); }
    ApplyFollows(s, e);
    HandleIsSettled(s, e);
    var s' := s.(now := e.at);
    var (x, d) := Apply(s', e);
    ArmGivesSettle(s', x, Closed(e, d));
    SortKeepsStarts(Settle(x, d).acts);
    AppliedKeepsHistory(s, e);
    SettleStartsSourced(x, d, t);
  }

  lemma AppliedKeepsHistory(s: State, e: SchedulerEvent)
    requires Inv(s) && WellFormedEvent(e) && HistoryOk(s.runs.jobs, s.now) && EarlyRejection(s, e).None?
    ensures var x := Apply(s.(now := e.at), e).0; HistoryOk(x.s.runs.jobs, x.s.now)
  {
    hide Handle, Settle, EarlyRejection, HistoryOk, Untouched, Sourced, Applies, Inv, TimeFirst, Cancelling, ArmOk,
         WellFormedEvent, Reloads, Apply, FinishJob, CompletedJobs;
    ApplyFollows(s, e);
    LaterHistory(s.runs.jobs, s.now, e.at);
    var s' := s.(now := e.at);
    if Reloads(e) {
      ReloadHistory(s', e);
    } else if e.JobFinished? && Applies(s, e, e.ticket) {
      var t := e.ticket;
      AppliedFinishes(s, e, t);
      var x := TimeFirst(s');
      TimeFirstGentle(s');
      CompletedHistory(x.s.runs.jobs, t, e.completion, x.s.now);
      FinishTail(x, t, e.completion, e.notificationReady);
    } else {
      if e.JobFinished? { UnappliedUnfinished(s, e); }
      QuietArmKept(s', e);
    }
  }

  lemma SettleStartsSourced(x: Step, d: EventDisposition, t: JobTicket)
    requires Occupancy(x.s.runs) && HistoryOk(x.s.runs.jobs, x.s.now) && (forall a :: a in x.acts ==> !a.StartJob?)
    requires Starts(Settle(x, d).acts, t)
    ensures var out := Settle(x, d).s;
      && out.now == x.s.now && t.job in out.runs.jobs
      && var rt := out.runs.jobs[t.job];
      && (rt.spec.timing != History ==> t.historyDeadline.None?)
      && (rt.spec.timing == History ==>
            && t.historyDeadline.Some? && rt.nominalDue.Some? && t.historyDeadline.value <= x.s.now
            && HistoryReady(rt.spec, out.runs.jobs)
            && (rt.spec.freshness > 0 ==>
                  t.historyDeadline.value < rt.nominalDue.value
                  && OnGrid(t.historyDeadline.value, rt.spec.freshness, rt.nominalDue.value)))
  {
    hide Occupancy, Dispatch, Launched, NextWake, OnGrid, CandidateLess, RankOf, WellFormed;
    DispatchStartsTheBest(x);
    DispatchEntries(x);
    var y := Dispatch(x);
    assert OnlyRuns(x.s, y.s) by { LaunchedIsOnlyRuns(x, y); }
    assert Starts(y.acts, t);
    assert Startable(x.s, t.job);
    assert HistoryTimes(x.s.runs.jobs[t.job], x.s.now);
  }
}
