/** What each scheduler event does, as a function of the state it finds
    (src/scheduler/machine.rs and its demand and publication submodules).
    `SchedulerMachine` holds the methods that carry these functions out step by step. */
module SchedulerSpec {
  import opened Arithmetic
  import opened Wrappers
  import opened Ordering
  import opened SchedulerPolicy
  import opened SchedulerModel

  datatype Lifecycle = Unstarted | Running | Suspended | Stopped

  type JobTable = map<JobId, JobRuntime>

  /** Jobs, the runs they own, and the owners those runs occupy. */
  datatype Runs = Runs(
    jobs: JobTable,
    inFlightOwners: map<OwnerId, RunId>,
    cancelling: map<RunId, JobTicket>,
    nextRunId: nat)

  datatype Settings = Settings(
    configGeneration: nat,
    inventoryGeneration: nat,
    displayInterval: Duration,
    demand: DemandPlan)

  /** What the user sees: presentation, its grace period, and the refresh a presentation waits for. */
  datatype View = View(
    presented: bool,
    effectivePresented: bool,
    selectedPage: PageId,
    deactivationDeadline: Option<Time>,
    activationDeadline: Option<Time>,
    activationWaiting: set<JobId>)

  /** The display clock and the first paint. */
  datatype Paint = Paint(
    nextDisplay: Option<Time>,
    firstPaintDeadline: Option<Time>,
    firstPaintWaiting: set<JobId>,
    firstPaintIssued: bool)

  /** Publications awaiting the panel's acknowledgement. */
  datatype Feed = Feed(panelPublications: set<PublicationId>, nextPublicationId: nat, notificationsArmed: bool)

  /** The inventory acknowledgement a resume waits for. */
  datatype Handshake = Handshake(awaiting: Option<ReconciliationId>, nextReconciliationId: nat)

  datatype State = State(
    lifecycle: Lifecycle,
    now: Time,
    settings: Settings,
    runs: Runs,
    view: View,
    paint: Paint,
    feed: Feed,
    handshake: Handshake)

  const INITIAL: State := State(
    Unstarted, 0,
    Settings(0, 0, 1_000_000_000, DemandPlan({}, {}, map[])),
    Runs(map[], map[], map[], 1),
    View(false, false, Main, None, None, {}),
    Paint(None, None, {}, false),
    Feed({}, 1, false),
    Handshake(None, 1))

  /** A state under construction together with the actions issued so far. */
  datatype Step = Step(s: State, acts: seq<SchedulerAction>)

  datatype Outcome = Outcome(s: State, disposition: EventDisposition, acts: seq<SchedulerAction>)

  function CurrentDemand(s: State): set<JobId> {
    s.settings.demand.Demanded(s.view.effectivePresented, s.view.selectedPage)
  }

  function WithJobs(s: State, jobs: JobTable): State {
    s.(runs := s.runs.(jobs := jobs))
  }

  predicate Due(deadline: Option<Time>, now: Time) {
    deadline.Some? && deadline.value <= now
  }

  // ----- publications

  predicate IsTooltipPublication(a: SchedulerAction) {
    a.PublishDisplay? && a.tooltip
  }

  predicate HasTooltipPublication(acts: seq<SchedulerAction>) {
    exists a :: a in acts && IsTooltipPublication(a)
  }

  predicate IsTooltipRefresh(a: SchedulerAction) {
    IsTooltipPublication(a) && a.why == TooltipRefresh
  }

  /** Index of the first tooltip refresh, or the length when there is none. */
  function FirstRefresh(acts: seq<SchedulerAction>): (i: nat)
    ensures i <= |acts|
    ensures i < |acts| ==> IsTooltipRefresh(acts[i])
    ensures forall j :: 0 <= j < i ==> !IsTooltipRefresh(acts[j])
  {
    if acts == [] || IsTooltipRefresh(acts[0]) then 0 else 1 + FirstRefresh(acts[1..])
  }

  /** The publication counters and the actions of one transition. */
  datatype Outbound = Outbound(feed: Feed, acts: seq<SchedulerAction>)

  function Publish(o: Outbound, why: PublishReason, deadline: Option<Time>, skipped: nat, panel: bool, tooltip: bool): Outbound {
    var i := FirstRefresh(o.acts);
    if !panel && !tooltip then o
    else if why == TooltipRefresh && HasTooltipPublication(o.acts) then o
    else if panel && tooltip && i < |o.acts| then
      var merged := o.acts[i].(why := why, displayDeadline := deadline, skipped := skipped, panel := true, tooltip := true);
      Outbound(o.feed.(panelPublications := o.feed.panelPublications + {o.acts[i].publication}), o.acts[i := merged])
    else
      var id := o.feed.nextPublicationId;
      Outbound(o.feed.(nextPublicationId := id + 1,
                       panelPublications := if panel then o.feed.panelPublications + {id} else o.feed.panelPublications),
               o.acts + [PublishDisplay(id, why, deadline, skipped, panel, tooltip)])
  }

  function IssuePublish(x: Step, why: PublishReason, deadline: Option<Time>, skipped: nat,
                        panel: bool, wantTooltip: bool): Step
  {
    var o := Publish(Outbound(x.s.feed, x.acts), why, deadline, skipped, panel, wantTooltip && x.s.view.presented);
    Step(x.s.(feed := o.feed), o.acts)
  }

  function Reanchored(jobs: JobTable, due: Time): JobTable {
    map id | id in jobs ::
      if jobs[id].spec.timing == FastDisplay then jobs[id].(nominalDue := Some(due)) else jobs[id]
  }

  function ReanchorFastJobs(s: State): State {
    if s.paint.nextDisplay.None? then s
    else WithJobs(s, Reanchored(s.runs.jobs, SaturatingSub(s.paint.nextDisplay.value, FAST_PREFETCH)))
  }

  /** The display deadlines the first paint stands for. */
  function FirstPaintSkips(s: State): nat {
    if s.paint.nextDisplay.Some?
    then DueIntervals(s.paint.nextDisplay.value, s.settings.displayInterval, s.now) else 0
  }

  function AdvanceDisplay(s: State): State {
    if !Due(s.paint.nextDisplay, s.now) then s
    else s.(paint := s.paint.(nextDisplay :=
              Some(AdvancePast(s.paint.nextDisplay.value, s.settings.displayInterval, s.now))))
  }

  function Painted(s: State): State {
    var s1 := s.(paint := s.paint.(firstPaintIssued := true, firstPaintDeadline := None, firstPaintWaiting := {}));
    if Due(s1.paint.nextDisplay, s1.now) then ReanchorFastJobs(AdvanceDisplay(s1)) else s1
  }

  function IssueFirstPaint(x: Step, why: PublishReason): Step {
    if x.s.paint.firstPaintIssued then x
    else IssuePublish(Step(Painted(x.s), x.acts), why, None, FirstPaintSkips(x.s), true, x.s.view.effectivePresented)
  }

  // ----- cancellation

  function InFlightTickets(ids: seq<JobId>, jobs: JobTable): (r: seq<JobTicket>)
    requires forall id :: id in ids ==> id in jobs
    ensures forall t :: t in r <==> exists id :: id in ids && jobs[id].inFlight == Some(t)
  {
    if ids == [] then []
    else
      assert ids == [ids[0]] + ids[1..];
      (if jobs[ids[0]].inFlight.Some? then [jobs[ids[0]].inFlight.value] else []) + InFlightTickets(ids[1..], jobs)
  }

  function AddTickets(m: map<RunId, JobTicket>, tickets: seq<JobTicket>): (r: map<RunId, JobTicket>)
    ensures r.Keys == m.Keys + set t | t in tickets :: t.runId
  {
    if tickets == [] then m
    else
      var last := |tickets| - 1;
      assert tickets == tickets[..last] + [tickets[last]];
      AddTickets(m, tickets[..last])[tickets[last].runId := tickets[last]]
  }

  function CancelActions(tickets: seq<JobTicket>, reason: CancelReason): (r: seq<SchedulerAction>)
    ensures forall a :: a in r <==> a.CancelJob? && a.reason == reason && a.ticket in tickets
  {
    var r := seq(|tickets|, i requires 0 <= i < |tickets| => CancelJob(tickets[i], reason));
    assert forall t :: t in tickets ==> exists i :: 0 <= i < |tickets| && tickets[i] == t && r[i] == CancelJob(t, reason);
    r
  }

  function Landed(jobs: JobTable, which: set<JobId>): JobTable {
    map id | id in jobs :: if id in which then jobs[id].(inFlight := None) else jobs[id]
  }

  /** The running tickets of the jobs in `which`, in job order. */
  function Moved(jobs: JobTable, which: set<JobId>): seq<JobTicket> {
    InFlightTickets(InOrder(which * jobs.Keys), jobs)
  }

  function CancelRuns(r: Runs, which: set<JobId>): Runs {
    r.(jobs := Landed(r.jobs, which), cancelling := AddTickets(r.cancelling, Moved(r.jobs, which)))
  }

  /** Moves the running tickets of the jobs in `which` from in flight to cancelling. */
  function CancelWhere(x: Step, which: set<JobId>, reason: CancelReason): Step {
    Step(x.s.(runs := CancelRuns(x.s.runs, which)), x.acts + CancelActions(Moved(x.s.runs.jobs, which), reason))
  }

  function CancelAll(x: Step, reason: CancelReason): Step {
    CancelWhere(x, x.s.runs.jobs.Keys, reason)
  }

  // ----- demand

  function Rested(rt: JobRuntime): JobRuntime {
    rt.(pendingSince := None, pendingHistoryDeadline := None, retryDue := None)
  }

  function AllRested(jobs: JobTable, which: set<JobId>): JobTable {
    map id | id in jobs :: if id in which then Rested(jobs[id]) else jobs[id]
  }

  function DemandRefreshed(jobs: JobTable, demanded: set<JobId>, now: Time): JobTable {
    map id | id in jobs ::
      if id !in demanded then Rested(jobs[id])
      else if jobs[id].spec.timing != History && jobs[id].inFlight.None? && !jobs[id].hasSample
           then jobs[id].MarkPending(now)
      else jobs[id]
  }

  function PageWork(ids: set<JobId>): set<JobId> {
    set id | id in ids && IsCancelledPageWork(id)
  }

  function RefreshDemand(x: Step, cancelPageJobs: bool): Step {
    var demanded := CurrentDemand(x.s);
    var refreshed := Step(WithJobs(x.s, DemandRefreshed(x.s.runs.jobs, demanded, x.s.now)), x.acts);
    if cancelPageJobs then CancelWhere(refreshed, PageWork(x.s.runs.jobs.Keys - demanded), DemandEnded) else refreshed
  }

  function CancelDemandEnded(x: Step, before: set<JobId>, after: set<JobId>): Step {
    var ended := PageWork(before - after);
    CancelWhere(Step(WithJobs(x.s, AllRested(x.s.runs.jobs, ended)), x.acts), ended, DemandEnded)
  }

  /** The jobs among `ids` that take a pending mark of their own. */
  function Sampling(ids: set<JobId>, jobs: JobTable): set<JobId> {
    set id | id in ids && id in jobs && jobs[id].spec.timing != History
  }

  function Marked(jobs: JobTable, which: set<JobId>, now: Time): JobTable {
    map id | id in jobs :: if id in which then jobs[id].MarkPending(now) else jobs[id]
  }

  function MarkJobs(s: State, which: set<JobId>): State {
    WithJobs(s, Marked(s.runs.jobs, which, s.now))
  }

  function WaitFor(v: View, waiting: set<JobId>, track: bool, now: Time): View {
    v.(activationWaiting := waiting,
       activationDeadline :=
         if waiting == {} then None
         else if track && v.activationDeadline.None? then Some(now + ACTIVATION_REFRESH_TIMEOUT)
         else v.activationDeadline)
  }

  function ActivateJobs(s: State, before: set<JobId>, after: set<JobId>, track: bool): State {
    var added := Sampling(after - before, s.runs.jobs);
    var waiting := s.view.activationWaiting * after + (if track then added else {});
    MarkJobs(s, added).(view := WaitFor(s.view, waiting, track, s.now))
  }

  function AllRetried(jobs: JobTable, which: set<JobId>, now: Time): JobTable {
    map id | id in jobs :: if id in which then jobs[id].MarkPending(now).(retryDue := None) else jobs[id]
  }

  function RefreshAllDemanded(s: State): State {
    WithJobs(s, AllRetried(s.runs.jobs, Sampling(CurrentDemand(s), s.runs.jobs), s.now))
  }

  /** The panel jobs the first paint waits for. */
  function FirstPaintBlockers(jobs: JobTable, demanded: set<JobId>): set<JobId> {
    set id | id in jobs && id in demanded && jobs[id].spec.startupPanel
             && jobs[id].spec.timing != History && !jobs[id].hasSample
  }

  function PaintWhenReady(x: Step): Step {
    if !x.s.paint.firstPaintIssued && x.s.paint.firstPaintWaiting == {} then IssueFirstPaint(x, FirstPaintReady) else x
  }

  function RebuildFirstPaintBlockers(x: Step): Step {
    if x.s.paint.firstPaintIssued then x
    else
      var blockers := FirstPaintBlockers(x.s.runs.jobs, CurrentDemand(x.s));
      PaintWhenReady(Step(x.s.(paint := x.s.paint.(firstPaintWaiting := blockers)), x.acts))
  }

  // ----- replacing the job table

  /** The jobs still to be matched, the new table, and the actions issued. */
  datatype Replacement = Replacement(previous: JobTable, table: JobTable, acts: seq<SchedulerAction>)

  predicate SourceChanged(prior: JobSpec, spec: JobSpec) {
    prior.historySource != spec.historySource || prior.amd != spec.amd
  }

  function ClearedMetrics(prior: JobSpec, spec: JobSpec): Option<set<Metric>> {
    if prior.amd.Some? && spec.amd.Some? then Some(prior.amd.value.source.ChangedMetrics(spec.amd.value.source)) else None
  }

  /** What becomes of a job that the new table asks for again. */
  function Carried(prior: JobRuntime, spec: JobSpec, now: Time, display: Time): JobRuntime {
    if prior.spec == spec then prior
    else NewRuntime(spec, now, display).(hasSample := prior.hasSample && !SourceChanged(prior.spec, spec))
  }

  function ReplaceOne(r: Replacement, spec: JobSpec, now: Time, display: Time, reason: CancelReason): Replacement {
    if spec.id !in r.previous then
      r.(table := r.table[spec.id := NewRuntime(spec, now, display)])
    else
      var prior := r.previous[spec.id];
      Replacement(r.previous - {spec.id},
                  r.table[spec.id := Carried(prior, spec, now, display)],
                  if SourceChanged(prior.spec, spec)
                  then r.acts + [InvalidateJob(spec.id, reason, ClearedMetrics(prior.spec, spec))] else r.acts)
  }

  function ReplaceEach(r: Replacement, specs: seq<JobSpec>, now: Time, display: Time, reason: CancelReason): Replacement {
    if specs == [] then r
    else
      var last := |specs| - 1;
      ReplaceOne(ReplaceEach(r, specs[..last], now, display, reason), specs[last], now, display, reason)
  }

  function InvalidateAll(ids: seq<JobId>, reason: CancelReason): (r: seq<SchedulerAction>)
    ensures forall a :: a in r ==> a.InvalidateJob?
  {
    seq(|ids|, i requires 0 <= i < |ids| => InvalidateJob(ids[i], reason, None))
  }

  function DisplayAnchor(s: State): Time {
    if s.paint.nextDisplay.Some? then s.paint.nextDisplay.value else s.now + s.settings.displayInterval
  }

  /** The waiting sets and marks of a state whose job table has just been replaced. */
  function Resettled(s: State): State {
    var blockers := if s.paint.firstPaintIssued then {} else FirstPaintBlockers(s.runs.jobs, CurrentDemand(s));
    MarkJobs(s, blockers).(
      paint := s.paint.(firstPaintWaiting := blockers),
      view := s.view.(activationWaiting := s.view.activationWaiting * s.runs.jobs.Keys))
  }

  function ReplaceJobs(x: Step, specs: seq<JobSpec>, reason: CancelReason): Step {
    var x1 := CancelAll(x, reason);
    var r := ReplaceEach(Replacement(x1.s.runs.jobs, map[], x1.acts), specs, x1.s.now, DisplayAnchor(x1.s), reason);
    Step(Resettled(WithJobs(x1.s, r.table)), r.acts + InvalidateAll(InOrder(r.previous.Keys), reason))
  }

  // ----- events that change what is wanted

  function DiscoveryJobs(s: State): set<JobId> {
    set id | id in s.runs.jobs && id in CurrentDemand(s) && id.kind == HARDWARE_DISCOVERY
  }

  function Reset(s: State, config: SchedulerConfig): State {
    s.(settings := s.settings.(configGeneration := config.generation, displayInterval := config.displayInterval,
                               demand := config.demand),
       paint := s.paint.(nextDisplay := Some(s.now + config.displayInterval)))
  }

  function Reconfigure(x: Step, config: SchedulerConfig): Step {
    var x2 := ReplaceJobs(Step(Reset(x.s, config), x.acts), config.jobs, ConfigReplaced);
    var x3 := RefreshDemand(Step(ReanchorFastJobs(x2.s), x2.acts), false);
    var s4 := MarkJobs(x3.s, DiscoveryJobs(x3.s));
    if s4.paint.firstPaintIssued
    then IssuePublish(Step(s4, x3.acts), ConfigReload, None, 0, true, s4.view.effectivePresented)
    else Step(s4, x3.acts)
  }

  predicate Acknowledges(s: State, update: InventoryUpdate) {
    update.resumeAcknowledgement == s.handshake.awaiting && s.handshake.awaiting.Some?
  }

  function ChangeInventory(x: Step, update: InventoryUpdate): Step {
    var resumes := Acknowledges(x.s, update);
    var before := CurrentDemand(x.s);
    var s1 := x.s.(settings := x.s.settings.(inventoryGeneration := update.generation, demand := update.demand));
    var x2 := ReplaceJobs(Step(s1, x.acts), update.jobs, SourceReplaced);
    var s3 := if resumes then x2.s.(handshake := x2.s.handshake.(awaiting := None)) else x2.s;
    var s4 := ActivateJobs(s3, before, CurrentDemand(s3), s3.view.effectivePresented);
    var x5 := RefreshDemand(Step(s4, x2.acts), false);
    if resumes then Step(RefreshAllDemanded(x5.s), x5.acts) else x5
  }

  function ChangeDemand(x: Step, demand: DemandPlan): Step {
    var before := CurrentDemand(x.s);
    var s1 := x.s.(settings := x.s.settings.(demand := demand));
    var after := CurrentDemand(s1);
    var x2 := CancelDemandEnded(Step(s1, x.acts), before, after);
    var s3 := ActivateJobs(x2.s, before, after, x2.s.view.effectivePresented);
    RebuildFirstPaintBlockers(RefreshDemand(Step(s3, x2.acts), false))
  }

  predicate WantsTooltipRefresh(spec: JobSpec) {
    spec.amd.Some? && !(spec.amd.value.tooltip <= spec.amd.value.hidden)
  }

  function Stale(jobs: JobTable): set<JobId> {
    set id | id in jobs && WantsTooltipRefresh(jobs[id].spec)
  }

  function RefreshActivation(x: Step): Step {
    var stale := Stale(x.s.runs.jobs);
    var waiting := x.s.view.activationWaiting + stale;
    var s1 := MarkJobs(x.s, stale).(view := x.s.view.(activationWaiting := waiting));
    if waiting == {} then IssuePublish(Step(s1, x.acts), TooltipActivated, None, 0, false, true)
    else Step(s1.(view := WaitFor(s1.view, waiting, true, s1.now)), x.acts)
  }

  function ShowTooltip(s: State): State {
    var s1 := s.(view := s.view.(presented := true, deactivationDeadline := None, effectivePresented := true));
    if s.view.effectivePresented then s1
    else ActivateJobs(s1, s1.settings.demand.Demanded(false, s1.view.selectedPage), CurrentDemand(s1), true)
  }

  function HideTooltip(s: State): State {
    s.(view := s.view.(presented := false,
                       deactivationDeadline := if s.view.presented && s.view.effectivePresented
                                               then Some(s.now + DEACTIVATION_GRACE) else s.view.deactivationDeadline))
  }

  function ChangePresentation(x: Step, presented: bool): Step {
    if !presented then Step(HideTooltip(x.s), x.acts)
    else if x.s.view.presented then Step(ShowTooltip(x.s), x.acts)
    else RefreshActivation(Step(ShowTooltip(x.s), x.acts))
  }

  function ChangePage(x: Step, page: PageId): Step {
    if page == x.s.view.selectedPage then x
    else
      var before := CurrentDemand(x.s);
      var s1 := x.s.(view := x.s.view.(selectedPage := page));
      if !s1.view.effectivePresented then Step(s1, x.acts)
      else
        var after := CurrentDemand(s1);
        var x2 := CancelDemandEnded(Step(s1, x.acts), before, after);
        var s3 := ActivateJobs(x2.s, before, after, true);
        if s3.view.presented && s3.view.activationWaiting == {}
        then IssuePublish(Step(s3, x2.acts), PageChanged, None, 0, false, true)
        else Step(s3, x2.acts)
  }

  // ----- time

  function ExpireDeactivation(x: Step): Step {
    if !Due(x.s.view.deactivationDeadline, x.s.now) then x
    else if x.s.view.presented then Step(x.s.(view := x.s.view.(deactivationDeadline := None)), x.acts)
    else RefreshDemand(Step(x.s.(view := x.s.view.(deactivationDeadline := None, effectivePresented := false)), x.acts), true)
  }

  function ExpireFirstPaint(x: Step): Step {
    if Due(x.s.paint.firstPaintDeadline, x.s.now) && !x.s.paint.firstPaintIssued
    then IssueFirstPaint(x, FirstPaintTimeout)
    else x
  }

  function ExpireActivation(x: Step): Step {
    if !Due(x.s.view.activationDeadline, x.s.now) then x
    else IssuePublish(Step(x.s.(view := x.s.view.(activationDeadline := None, activationWaiting := {})), x.acts),
                      TooltipRefresh, None, 0, false, true)
  }

  function DisplayTick(x: Step): Step {
    if !(x.s.paint.firstPaintIssued && Due(x.s.paint.nextDisplay, x.s.now)) then x
    else
      var deadline := x.s.paint.nextDisplay.value;
      var skipped := SkippedIntervals(deadline, x.s.settings.displayInterval, x.s.now);
      var x1 := IssuePublish(x, DisplayDeadline, Some(deadline), skipped, true, x.s.view.effectivePresented);
      Step(AdvanceDisplay(x1.s), x1.acts)
  }

  /** True when a job needs no source, or its source has a sample. */
  predicate HistoryReady(spec: JobSpec, jobs: JobTable) {
    spec.historySource.None? || (spec.historySource.value in jobs && jobs[spec.historySource.value].hasSample)
  }

  function RetryTimed(rt: JobRuntime, now: Time): JobRuntime {
    if Due(rt.retryDue, now) then rt.(retryDue := None).MarkPending(now) else rt
  }

  function NominalTimed(rt: JobRuntime, ready: bool, now: Time): JobRuntime {
    if !Due(rt.nominalDue, now) then rt
    else
      var due := rt.nominalDue.value;
      var marked := if rt.spec.timing != History then rt.MarkPending(now)
                    else if ready then rt.MarkHistoryPending(LatestDueAtOrBefore(due, rt.spec.freshness, now))
                    else rt;
      marked.(nominalDue := Some(AdvancePast(due, rt.spec.freshness, now)))
  }

  function TimedRuntime(rt: JobRuntime, ready: bool, now: Time): JobRuntime {
    NominalTimed(RetryTimed(rt, now), ready, now)
  }

  function TimedJobs(jobs: JobTable, demanded: set<JobId>, now: Time): JobTable {
    map id | id in jobs ::
      if id in demanded then TimedRuntime(jobs[id], HistoryReady(jobs[id].spec, jobs), now) else jobs[id]
  }

  /** The surface timers, in the order they are looked at. */
  function ExpireTimers(x: Step): Step {
    DisplayTick(ExpireActivation(ExpireFirstPaint(ExpireDeactivation(x))))
  }

  function TimeJobs(s: State): State {
    WithJobs(s, TimedJobs(s.runs.jobs, CurrentDemand(s), s.now))
  }

  function ProcessTime(x: Step): Step {
    var x4 := ExpireTimers(x);
    Step(TimeJobs(x4.s), x4.acts)
  }

  // ----- job results

  /** The run `t` is in flight. */
  predicate Flying(r: Runs, t: JobTicket) {
    t.job in r.jobs && r.jobs[t.job].inFlight == Some(t)
  }

  predicate Cancelling(r: Runs, t: JobTicket) {
    t.runId in r.cancelling && r.cancelling[t.runId] == t
  }

  predicate CurrentGenerations(s: State, t: JobTicket) {
    t.configGeneration == s.settings.configGeneration && t.inventoryGeneration == s.settings.inventoryGeneration
  }

  predicate IsCurrentTicket(s: State, t: JobTicket) {
    s.lifecycle == Running && Finishes(s, t)
  }

  predicate Finishes(s: State, t: JobTicket) {
    CurrentGenerations(s, t) && Flying(s.runs, t)
  }

  function FailedOnce(failures: nat): nat {
    if failures < U32_MAX then failures + 1 else failures
  }

  function Completed(rt: JobRuntime, completion: CompletionKind, now: Time): JobRuntime {
    var landed := rt.(inFlight := None);
    match completion
    case Captured => landed.(hasSample := true, failureCount := 0, needsBaseline := false, retryDue := None)
    case Baseline => landed.(failureCount := 0, needsBaseline := true,
                             retryDue := if rt.spec.timing != History then Some(now + RETRY_BASE) else None)
    case ConfirmedAbsent => landed.(hasSample := false, failureCount := 0, needsBaseline := false, retryDue := None)
    case Failed =>
      var failures := FailedOnce(rt.failureCount);
      landed.(failureCount := failures,
              retryDue := if rt.spec.timing != History
                          then Some(now + RetryDelay(failures, rt.spec.freshness)) else rt.retryDue)
  }

  function Dependents(jobs: JobTable, source: JobId): set<JobId> {
    set id | id in jobs && jobs[id].spec.historySource == Some(source)
  }

  function Orphaned(jobs: JobTable, dependents: set<JobId>): JobTable {
    map id | id in jobs ::
      if id in dependents
      then jobs[id].(hasSample := false, pendingSince := None, pendingHistoryDeadline := None)
      else jobs[id]
  }

  /** The job table once `t` has completed. */
  function CompletedJobs(jobs: JobTable, t: JobTicket, completion: CompletionKind, now: Time): JobTable
    requires t.job in jobs
  {
    var landed := jobs[t.job := Completed(jobs[t.job], completion, now)];
    if completion == ConfirmedAbsent then Orphaned(landed, Dependents(landed, t.job)) else landed
  }

  function CompletionActions(s: State, t: JobTicket, completion: CompletionKind, ready: bool): (r: seq<SchedulerAction>)
    requires t.job in s.runs.jobs
    ensures forall a :: a in r ==> a.ApplyBackoff? || a.EvaluateNotifications? || a.InvalidateJob?
  {
    var rt := Completed(s.runs.jobs[t.job], completion, s.now);
    var backoff := if completion == Failed && rt.spec.timing != History
                   then [ApplyBackoff(t.job, rt.failureCount, s.now + RetryDelay(rt.failureCount, rt.spec.freshness))] else [];
    var notify := if ready && s.feed.notificationsArmed && rt.spec.timing != History
                  then [EvaluateNotifications(t)] else [];
    var orphans := if completion == ConfirmedAbsent
                   then InvalidateAll(InOrder(Dependents(s.runs.jobs, t.job)), SourceReplaced) else [];
    backoff + notify + orphans
  }

  function RefreshWhenReady(x: Step): Step {
    if x.s.view.activationDeadline.Some? && x.s.view.activationWaiting == {}
    then IssuePublish(Step(x.s.(view := x.s.view.(activationDeadline := None)), x.acts), TooltipRefresh, None, 0, false, true)
    else x
  }

  function LandRun(s: State, t: JobTicket, completion: CompletionKind): State
    requires t.job in s.runs.jobs
  {
    s.(runs := s.runs.(jobs := CompletedJobs(s.runs.jobs, t, completion, s.now),
                       inFlightOwners := s.runs.inFlightOwners - {t.job.owner}),
       paint := s.paint.(firstPaintWaiting := s.paint.firstPaintWaiting - {t.job}),
       view := s.view.(activationWaiting := s.view.activationWaiting - {t.job}))
  }

  function FinishJob(x: Step, t: JobTicket, completion: CompletionKind, ready: bool): Step
    requires Finishes(x.s, t)
  {
    RefreshWhenReady(PaintWhenReady(
      Step(LandRun(x.s, t, completion), x.acts + CompletionActions(x.s, t, completion, ready))))
  }

  function ReleaseRun(r: Runs, t: JobTicket): Runs {
    var owner := t.job.owner;
    r.(cancelling := r.cancelling - {t.runId},
       inFlightOwners := if owner in r.inFlightOwners && r.inFlightOwners[owner] == t.runId
                         then r.inFlightOwners - {owner} else r.inFlightOwners)
  }

  function FinishCancellation(s: State, t: JobTicket): State {
    s.(runs := ReleaseRun(s.runs, t))
  }

  function Trigger(s: State, job: JobId): State {
    MarkJobs(s, Sampling({job} * CurrentDemand(s), s.runs.jobs))
  }

  // ----- lifecycle

  function SuspendNow(x: Step): Step {
    if x.s.lifecycle != Running then x
    else
      var x1 := CancelAll(x, ForSuspend);
      Step(x1.s.(lifecycle := Suspended), x1.acts)
  }

  function ResumedDeadline(rt: JobRuntime, now: Time): JobRuntime {
    if (rt.spec.timing == Periodic || rt.spec.timing == History) && Due(rt.nominalDue, now)
    then rt.(nominalDue := Some(AdvancePast(rt.nominalDue.value, rt.spec.freshness, now)))
    else rt
  }

  function ResumedRuntime(rt: JobRuntime, demanded: bool, now: Time): JobRuntime {
    ResumedDeadline(rt, now).(
      needsBaseline := rt.spec.counter || rt.needsBaseline,
      pendingSince := if demanded && rt.spec.timing != History then Some(now) else None,
      pendingHistoryDeadline := None,
      retryDue := None)
  }

  function ResumedJobs(jobs: JobTable, demanded: set<JobId>, now: Time): JobTable {
    map id | id in jobs :: ResumedRuntime(jobs[id], id in demanded, now)
  }

  function BaselineResets(ids: seq<JobId>, jobs: JobTable): (r: seq<SchedulerAction>)
    requires forall id :: id in ids ==> id in jobs
    ensures forall a :: a in r ==> a.ResetCounterBaseline?
  {
    if ids == [] then []
    else
      var last := |ids| - 1;
      assert ids == ids[..last] + [ids[last]];
      BaselineResets(ids[..last], jobs) + (if jobs[ids[last]].spec.counter then [ResetCounterBaseline(ids[last])] else [])
  }

  function Awakened(s: State): State {
    ReanchorFastJobs(s.(lifecycle := Running,
                        paint := s.paint.(nextDisplay := Some(s.now + s.settings.displayInterval))))
  }

  function ResumeNow(x: Step): Step {
    if x.s.lifecycle != Suspended then x
    else
      var s1 := Awakened(x.s);
      var id := s1.handshake.nextReconciliationId;
      Step(WithJobs(s1, ResumedJobs(s1.runs.jobs, CurrentDemand(s1), s1.now)).(handshake := Handshake(Some(id), id + 1)),
           x.acts + [RescanHardware(id)] + BaselineResets(InOrder(s1.runs.jobs.Keys), s1.runs.jobs))
  }

  function StopNow(x: Step, reason: CancelReason, component: Option<string>): Step {
    var x1 := CancelAll(x, reason);
    Step(x1.s.(lifecycle := Stopped), x1.acts + [Terminate(component)])
  }

  function TableOf(specs: seq<JobSpec>, anchor: Time, display: Time): JobTable {
    if specs == [] then map[]
    else
      var last := |specs| - 1;
      TableOf(specs[..last], anchor, display)[specs[last].id := NewRuntime(specs[last], anchor, display)]
  }

  function Started(s: State, config: SchedulerConfig, inventoryGeneration: nat): State {
    var display := s.now + config.displayInterval;
    s.(lifecycle := Running,
       settings := Settings(config.generation, inventoryGeneration, config.displayInterval, config.demand),
       paint := s.paint.(nextDisplay := Some(display), firstPaintDeadline := Some(s.now + FIRST_PAINT_TIMEOUT)),
       runs := s.runs.(jobs := TableOf(config.jobs, s.now, display)))
  }

  function StartupPanel(ids: set<JobId>, jobs: JobTable): set<JobId> {
    set id | id in ids && id in jobs && jobs[id].spec.startupPanel
  }

  function StartUp(x: Step, config: SchedulerConfig, inventoryGeneration: nat): Step {
    var s1 := Started(x.s, config, inventoryGeneration);
    var wanted := Sampling(CurrentDemand(s1), s1.runs.jobs);
    var waiting := s1.paint.firstPaintWaiting + StartupPanel(wanted, s1.runs.jobs);
    var x2 := Step(MarkJobs(s1, wanted).(paint := s1.paint.(firstPaintWaiting := waiting)), x.acts);
    if waiting == {} then IssueFirstPaint(x2, FirstPaintReady) else x2
  }

  // ----- dispatch

  datatype Candidate = Candidate(late: bool, since: Time, id: JobId)

  predicate CandidateLess(a: Candidate, b: Candidate) {
    (!a.late && b.late)
    || (a.late == b.late && (a.since < b.since || (a.since == b.since && JobLess(a.id, b.id))))
  }

  lemma CandidateLessTotal()
    ensures TotalOrder(CandidateLess)
  {
  }

  function CandidatesInOrder(cs: set<Candidate>): (r: seq<Candidate>)
    ensures forall c :: c in r <==> c in cs
    ensures Ascending(r, CandidateLess)
  {
    CandidateLessTotal();
    Sorted(cs, CandidateLess)
  }

  /** A job that may start as soon as its owner is free. */
  predicate Startable(s: State, id: JobId)
    requires id in s.runs.jobs
  {
    var rt := s.runs.jobs[id];
    id in CurrentDemand(s) && rt.pendingSince.Some? && rt.inFlight.None?
    && (rt.retryDue.None? || rt.retryDue.value <= s.now)
    && (rt.spec.timing == History ==> HistoryReady(rt.spec, s.runs.jobs))
  }

  function RankOf(s: State, id: JobId): Candidate
    requires id in s.runs.jobs && s.runs.jobs[id].pendingSince.Some?
  {
    var rt := s.runs.jobs[id];
    Candidate(s.paint.firstPaintIssued || !rt.spec.startupPanel, rt.pendingSince.value, id)
  }

  function Candidates(s: State): set<Candidate> {
    set id | id in s.runs.jobs && Startable(s, id) :: RankOf(s, id)
  }

  function TicketFor(s: State, id: JobId): JobTicket
    requires id in s.runs.jobs
  {
    var spec := s.runs.jobs[id].spec;
    JobTicket(if spec.amd.Some? then spec.amd.value.Metrics(s.view.presented) else {},
              s.runs.nextRunId, id, s.settings.configGeneration, s.settings.inventoryGeneration,
              s.runs.jobs[id].pendingHistoryDeadline)
  }

  function Launch(r: Runs, t: JobTicket): Runs
    requires t.job in r.jobs
  {
    var started := r.jobs[t.job].(pendingSince := None, pendingHistoryDeadline := None, inFlight := Some(t));
    r.(jobs := r.jobs[t.job := started],
       inFlightOwners := r.inFlightOwners[t.job.owner := t.runId],
       nextRunId := t.runId + 1)
  }

  function StartOne(x: Step, id: JobId): (r: Step)
    requires id in x.s.runs.jobs
    ensures r.s.runs.jobs.Keys == x.s.runs.jobs.Keys
  {
    if id.owner in x.s.runs.inFlightOwners then x
    else
      var t := TicketFor(x.s, id);
      Step(x.s.(runs := Launch(x.s.runs, t)), x.acts + [StartJob(t)])
  }

  predicate Listed(jobs: JobTable, cs: seq<Candidate>) {
    forall c :: c in cs ==> c.id in jobs
  }

  function StartEach(x: Step, cs: seq<Candidate>): (r: Step)
    requires Listed(x.s.runs.jobs, cs)
    ensures r.s.runs.jobs.Keys == x.s.runs.jobs.Keys
  {
    if cs == [] then x
    else
      var last := |cs| - 1;
      assert cs == cs[..last] + [cs[last]];
      StartOne(StartEach(x, cs[..last]), cs[last].id)
  }

  function Dispatch(x: Step): Step {
    if x.s.lifecycle != Running || x.s.handshake.awaiting.Some? then x
    else StartEach(x, CandidatesInOrder(Candidates(x.s)))
  }

  // ----- the next wake-up

  function Earlier(a: Option<Time>, b: Option<Time>): Option<Time> {
    if a.None? then b else if b.None? then a else Some(Min(a.value, b.value))
  }

  function EarliestJob(ids: seq<JobId>, jobs: JobTable): Option<Time>
    requires forall id :: id in ids ==> id in jobs
  {
    if ids == [] then None
    else
      var last := |ids| - 1;
      assert ids == ids[..last] + [ids[last]];
      Earlier(EarliestJob(ids[..last], jobs), Earlier(jobs[ids[last]].retryDue, jobs[ids[last]].nominalDue))
  }

  function SurfaceWake(s: State): Option<Time> {
    Earlier(Earlier(s.paint.nextDisplay, s.paint.firstPaintDeadline),
            Earlier(s.view.deactivationDeadline, s.view.activationDeadline))
  }

  function NextWake(s: State): Option<Time> {
    if s.lifecycle != Running || s.handshake.awaiting.Some? then None
    else Earlier(EarliestJob(InOrder(s.runs.jobs.Keys * CurrentDemand(s)), s.runs.jobs), SurfaceWake(s))
  }

  // ----- one event

  /** True when the event refers to something that is no longer current. */
  predicate IsStale(s: State, e: SchedulerEvent) {
    match e
    case ConfigChanged(_, config) => config.generation <= s.settings.configGeneration
    case InventoryChanged(_, update) => update.generation <= s.settings.inventoryGeneration
    case JobFinished(_, t, _, _) => !IsCurrentTicket(s, t) && !Cancelling(s.runs, t)
    case JobCancelled(_, t) => !Cancelling(s.runs, t)
    case PanelPublished(_, publication) => publication !in s.feed.panelPublications
    case _ => false
  }

  /** The rejections decided before anything changes. */
  function EarlyRejection(s: State, e: SchedulerEvent): Option<EventDisposition> {
    if s.lifecycle != Unstarted && e.at < s.now then Some(RejectedTimeRegression)
    else if s.lifecycle == Stopped then Some(RejectedLifecycle)
    else if (s.lifecycle == Unstarted) != e.Startup? then Some(RejectedLifecycle)
    else if IsStale(s, e) then Some(RejectedStale)
    else None
  }

  function TimeFirst(s: State): Step {
    if s.lifecycle == Running then ProcessTime(Step(s, [])) else Step(s, [])
  }

  function ApplyCompletion(s: State, t: JobTicket, completion: CompletionKind, ready: bool): (Step, EventDisposition) {
    var x := TimeFirst(s);
    if Cancelling(s.runs, t) then
      (if Cancelling(x.s.runs, t) then Step(FinishCancellation(x.s, t), x.acts) else x, Accepted)
    else if Finishes(x.s, t) then (FinishJob(x, t, completion, ready), Accepted)
    else (x, RejectedStale)
  }

  function ApplyCancelled(s: State, t: JobTicket): (Step, EventDisposition) {
    var x := TimeFirst(s);
    if Cancelling(x.s.runs, t) then (Step(FinishCancellation(x.s, t), x.acts), Accepted) else (x, RejectedStale)
  }

  function ApplyTrigger(s: State, job: JobId): Step {
    var x := TimeFirst(s);
    Step(Trigger(x.s, job), x.acts)
  }

  function Acknowledge(s: State, publication: PublicationId): State {
    s.(feed := s.feed.(panelPublications := s.feed.panelPublications - {publication}, notificationsArmed := true))
  }

  /** The event's own effect, before dispatch. */
  function Apply(s: State, e: SchedulerEvent): (Step, EventDisposition) {
    var x := Step(s, []);
    match e
    case Startup(_, config, inventory) => (StartUp(x, config, inventory), Accepted)
    case TimeAdvanced(_) => (TimeFirst(s), Accepted)
    case ConfigChanged(_, config) => (Reconfigure(x, config), Accepted)
    case InventoryChanged(_, update) => (ChangeInventory(x, update), Accepted)
    case DemandChanged(_, demand) => (ChangeDemand(x, demand), Accepted)
    case TooltipPresented(_, presented) => (ChangePresentation(x, presented), Accepted)
    case TooltipReactivated(_) => (if s.view.presented then RefreshActivation(x) else x, Accepted)
    case SelectedPageChanged(_, page) => (ChangePage(x, page), Accepted)
    case DisplayRefreshRequested(_) => (IssuePublish(x, ConfigReload, None, 0, true, s.view.effectivePresented), Accepted)
    case TooltipRefreshRequested(_) => (IssuePublish(x, TooltipRefresh, None, 0, false, true), Accepted)
    case JobFinished(_, t, completion, ready) => ApplyCompletion(s, t, completion, ready)
    case JobCancelled(_, t) => ApplyCancelled(s, t)
    case RefreshTriggered(_, job) => (ApplyTrigger(s, job), Accepted)
    case PanelPublished(_, publication) => (Step(Acknowledge(s, publication), []), Accepted)
    case Suspend(_) => (SuspendNow(x), Accepted)
    case Resume(_) => (ResumeNow(x), Accepted)
    case Shutdown(_) => (StopNow(x, ForShutdown, None), Accepted)
    case CriticalFailure(_, component) => (StopNow(x, ForCriticalFailure, Some(component)), Accepted)
  }

  function WakeActions(s: State): seq<SchedulerAction> {
    var wake := NextWake(s);
    if wake.Some? then [ScheduleDeadline(wake.value)] else []
  }

  /** Dispatch and the wake-up request that follow an accepted event while running. */
  function Settle(x: Step, disposition: EventDisposition): Step {
    if disposition != Accepted || x.s.lifecycle != Running then x
    else
      var y := Dispatch(x);
      Step(y.s, y.acts + WakeActions(y.s))
  }

  function Handle(s: State, e: SchedulerEvent): Outcome {
    var early := EarlyRejection(s, e);
    if early.Some? then Outcome(s, early.value, [])
    else
      var (x, disposition) := Apply(s.(now := e.at), e);
      var y := Settle(x, disposition);
      Outcome(y.s, disposition, SortActions(y.acts))
  }

  function Run(s: State, events: seq<SchedulerEvent>): State {
    if events == [] then s
    else
      var last := |events| - 1;
      Handle(Run(s, events[..last]), events[last]).s
  }
}
