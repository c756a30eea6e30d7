/** Identities, jobs, events and actions of the scheduler (src/scheduler/model.rs).

    Owners and job kinds are the declaration index of their variant, and a source identity is its
    rank in the derived order, so that `JobLess` is the source's derived `Ord`. Identifiers that the
    source counts in 64 bits are unbounded here. */
module SchedulerModel {
  import opened Arithmetic
  import opened Wrappers
  import opened Ordering
  import opened SchedulerPolicy

  type OwnerId = nat
  type RunId = nat
  type PublicationId = nat
  type ReconciliationId = nat
  type Metric = nat
  type JobKind = nat

  const PAGE_PROCESSES: JobKind := 27
  const PAGE_COMMAND: JobKind := 31
  const PAGE_RENDER: JobKind := 32
  const HARDWARE_DISCOVERY: JobKind := 33

  datatype JobId = JobId(owner: OwnerId, kind: JobKind, source: nat)

  predicate JobLess(a: JobId, b: JobId) {
    a.owner < b.owner
    || (a.owner == b.owner && (a.kind < b.kind || (a.kind == b.kind && a.source < b.source)))
  }

  lemma JobLessTotal()
    ensures TotalOrder(JobLess)
  {
  }

  /** The keys of a job table in iteration order. */
  function InOrder(ids: set<JobId>): (r: seq<JobId>)
    ensures forall id :: id in r <==> id in ids
    ensures Ascending(r, JobLess)
    ensures forall i, j :: 0 <= i < j < |r| ==> r[i] != r[j]
  {
    JobLessTotal();
    Sorted(ids, JobLess)
  }

  function IsCancelledPageWork(job: JobId): bool {
    job.kind == PAGE_COMMAND || job.kind == PAGE_RENDER || job.kind == PAGE_PROCESSES
  }

  datatype PageId = Main | Processes | CpuCores | Connections | Fastfetch | Graphs | Other(id: string)

  datatype TimingClass = FastDisplay | Periodic | History | Triggered

  /** One AMD device: its identity and, per metric, the file that metric is read from. */
  datatype AmdSource = AmdSource(pciIdentity: string, paths: map<Metric, string>) {
    function ChangedMetrics(other: AmdSource): set<Metric> {
      set m | m in paths.Keys + other.paths.Keys
              && (pciIdentity != other.pciIdentity || m !in paths || m !in other.paths || paths[m] != other.paths[m])
    }
  }

  datatype AmdJob = AmdJob(source: AmdSource, hidden: set<Metric>, tooltip: set<Metric>) {
    function Metrics(presented: bool): set<Metric> {
      if presented then hidden + tooltip else hidden
    }
  }

  datatype JobSpec = JobSpec(
    amd: Option<AmdJob>,
    id: JobId,
    timing: TimingClass,
    freshness: Duration,
    historySource: Option<JobId>,
    startupPanel: bool,
    counter: bool,
    isVolatile: bool)

  datatype JobTicket = JobTicket(
    metrics: set<Metric>,
    runId: RunId,
    job: JobId,
    configGeneration: nat,
    inventoryGeneration: nat,
    historyDeadline: Option<Time>)

  datatype JobRuntime = JobRuntime(
    spec: JobSpec,
    nominalDue: Option<Time>,
    retryDue: Option<Time>,
    pendingSince: Option<Time>,
    pendingHistoryDeadline: Option<Time>,
    inFlight: Option<JobTicket>,
    hasSample: bool,
    failureCount: nat,
    needsBaseline: bool)
  {
    function MarkPending(at: Time): JobRuntime {
      if pendingSince.None? then this.(pendingSince := Some(at)) else this
    }

    function MarkHistoryPending(deadline: Time): JobRuntime {
      MarkPending(deadline).(pendingHistoryDeadline := Some(deadline))
    }
  }

  function NewRuntime(spec: JobSpec, anchor: Time, displayDeadline: Time): JobRuntime {
    var due := match spec.timing
      case FastDisplay => Some(SaturatingSub(displayDeadline, FAST_PREFETCH))
      case Periodic => Some(anchor + spec.freshness)
      case History => Some(anchor + spec.freshness)
      case Triggered => None;
    JobRuntime(spec, due, None, None, None, None, false, 0, false)
  }

  datatype DemandPlan = DemandPlan(hidden: set<JobId>, mainTooltip: set<JobId>, pages: map<PageId, set<JobId>>) {
    function Demanded(presented: bool, page: PageId): set<JobId> {
      if !presented then hidden
      else hidden + mainTooltip + (if page in pages then pages[page] else {})
    }
  }

  datatype SchedulerConfig = SchedulerConfig(
    generation: nat,
    displayInterval: Duration,
    jobs: seq<JobSpec>,
    demand: DemandPlan)

  datatype InventoryUpdate = InventoryUpdate(
    generation: nat,
    jobs: seq<JobSpec>,
    demand: DemandPlan,
    resumeAcknowledgement: Option<ReconciliationId>)

  datatype CompletionKind = Captured | Baseline | ConfirmedAbsent | Failed

  datatype PublishReason =
    | FirstPaintReady | FirstPaintTimeout | DisplayDeadline | TooltipActivated
    | TooltipRefresh | PageChanged | ConfigReload

  datatype CancelReason =
    | ConfigReplaced | SourceReplaced | DemandEnded | ForSuspend | ForShutdown | ForCriticalFailure

  datatype SchedulerEvent =
    | Startup(at: Time, config: SchedulerConfig, inventoryGeneration: nat)
    | TimeAdvanced(at: Time)
    | ConfigChanged(at: Time, config: SchedulerConfig)
    | InventoryChanged(at: Time, update: InventoryUpdate)
    | DemandChanged(at: Time, demand: DemandPlan)
    | TooltipPresented(at: Time, presented: bool)
    | TooltipReactivated(at: Time)
    | SelectedPageChanged(at: Time, page: PageId)
    | DisplayRefreshRequested(at: Time)
    | TooltipRefreshRequested(at: Time)
    | JobFinished(at: Time, ticket: JobTicket, completion: CompletionKind, notificationReady: bool)
    | JobCancelled(at: Time, ticket: JobTicket)
    | RefreshTriggered(at: Time, job: JobId)
    | PanelPublished(at: Time, publication: PublicationId)
    | Suspend(at: Time)
    | Resume(at: Time)
    | Shutdown(at: Time)
    | CriticalFailure(at: Time, component: string)

  datatype SchedulerAction =
    | InvalidateJob(job: JobId, reason: CancelReason, cleared: Option<set<Metric>>)
    | CancelJob(ticket: JobTicket, reason: CancelReason)
    | ResetCounterBaseline(job: JobId)
    | PublishDisplay(publication: PublicationId, why: PublishReason, displayDeadline: Option<Time>,
                     skipped: nat, panel: bool, tooltip: bool)
    | EvaluateNotifications(ticket: JobTicket)
    | RescanHardware(reconciliation: ReconciliationId)
    | ApplyBackoff(job: JobId, failures: nat, retryAt: Time)
    | StartJob(ticket: JobTicket)
    | ScheduleDeadline(when: Time)
    | Terminate(component: Option<string>)

  datatype EventDisposition = Accepted | RejectedStale | RejectedTimeRegression | RejectedLifecycle

  // ----- the order in which one transition's actions are handed out

  function ActionPriority(a: SchedulerAction): (p: nat)
    ensures p < 10
  {
    match a
    case InvalidateJob(_, _, _) => 0
    case CancelJob(_, _) => 1
    case ResetCounterBaseline(_) => 2
    case PublishDisplay(_, _, _, _, _, _) => 3
    case EvaluateNotifications(_) => 4
    case RescanHardware(_) => 5
    case ApplyBackoff(_, _, _) => 6
    case StartJob(_) => 7
    case ScheduleDeadline(_) => 8
    case Terminate(_) => 9
  }

  function OfPriority(p: nat, acts: seq<SchedulerAction>): (r: seq<SchedulerAction>)
    ensures forall a :: a in r <==> a in acts && ActionPriority(a) == p
  {
    if acts == [] then []
    else
      var rest := OfPriority(p, acts[1..]);
      if ActionPriority(acts[0]) == p then [acts[0]] + rest else rest
  }

  ghost predicate ByPriority(acts: seq<SchedulerAction>) {
    forall i, j :: 0 <= i < j < |acts| ==> ActionPriority(acts[i]) <= ActionPriority(acts[j])
  }

  function InsertAction(a: SchedulerAction, acts: seq<SchedulerAction>): (r: seq<SchedulerAction>)
    ensures multiset(r) == multiset{a} + multiset(acts)
  {
    if acts == [] then [a]
    else if ActionPriority(a) <= ActionPriority(acts[0]) then [a] + acts
    else
      assert acts == [acts[0]] + acts[1..];
      [acts[0]] + InsertAction(a, acts[1..])
  }

  /** The stable sort by priority. */
  function SortActions(acts: seq<SchedulerAction>): (r: seq<SchedulerAction>)
    ensures multiset(r) == multiset(acts)
    ensures forall a :: a in r <==> a in acts
  {
    if acts == [] then []
    else
      assert acts == [acts[0]] + acts[1..];
      var r := InsertAction(acts[0], SortActions(acts[1..]));
      assert forall a :: a in r <==> a in multiset(r);
      assert forall a :: a in acts <==> a in multiset(acts);
      r
  }

  lemma {:induction false} InsertKeepsOrder(a: SchedulerAction, acts: seq<SchedulerAction>)
    requires ByPriority(acts)
    ensures ByPriority(InsertAction(a, acts))
  {
    if acts != [] && ActionPriority(a) > ActionPriority(acts[0]) {
      InsertKeepsOrder(a, acts[1..]);
      var rest := InsertAction(a, acts[1..]);
      forall i | 0 <= i < |rest|
        ensures ActionPriority(acts[0]) <= ActionPriority(rest[i])
      {
        assert rest[i] in multiset(rest);
        assert rest[i] == a || rest[i] in acts[1..];
      }
    }
  }

  lemma OfPriorityCons(a: SchedulerAction, acts: seq<SchedulerAction>, p: nat)
    ensures OfPriority(p, [a] + acts) == (if ActionPriority(a) == p then [a] else []) + OfPriority(p, acts)
  {
    assert ([a] + acts)[1..] == acts;
  }

  lemma {:induction false} InsertIsStable(a: SchedulerAction, acts: seq<SchedulerAction>, p: nat)
    ensures OfPriority(p, InsertAction(a, acts))
         == (if ActionPriority(a) == p then [a] else []) + OfPriority(p, acts)
  {
    hide OfPriority;
    if acts == [] || ActionPriority(a) <= ActionPriority(acts[0]) {
      OfPriorityCons(a, acts, p);
      assert acts == [] ==> [a] + acts == [a];
    } else {
      InsertIsStable(a, acts[1..], p);
      var rest := InsertAction(a, acts[1..]);
      assert InsertAction(a, acts) == [acts[0]] + rest;
      hide InsertAction;
      OfPriorityCons(acts[0], acts[1..], p);
      OfPriorityCons(acts[0], rest, p);
      assert acts == [acts[0]] + acts[1..];
      hide ActionPriority;
      OneIsEmpty(if ActionPriority(acts[0]) == p then [acts[0]] else [], if ActionPriority(a) == p then [a] else [],
                 OfPriority(p, acts[1..]));
    }
  }

  lemma OneIsEmpty(a: seq<SchedulerAction>, b: seq<SchedulerAction>, rest: seq<SchedulerAction>)
    requires a == [] || b == []
    ensures a + (b + rest) == b + (a + rest)
  {
    assert [] + rest == rest;
  }

  /** Sorting orders the actions by priority and keeps actions of one priority in the order they
      were issued. */
  lemma {:induction false} SortActionsIsStable(acts: seq<SchedulerAction>, p: nat)
    ensures ByPriority(SortActions(acts))
    ensures OfPriority(p, SortActions(acts)) == OfPriority(p, acts)
  {
    if acts != [] {
      SortActionsIsStable(acts[1..], p);
      InsertKeepsOrder(acts[0], SortActions(acts[1..]));
      InsertIsStable(acts[0], SortActions(acts[1..]), p);
    }
  }
}
