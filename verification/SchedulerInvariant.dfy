/** The invariant of every reachable scheduler state, and what one event may do to the runs. */
module SchedulerInvariant {
  import opened Wrappers
  import opened SchedulerPolicy
  import opened SchedulerModel
  import opened SchedulerSpec
  import opened SchedulerSafety
  import opened SchedulerSteps

  /** Runs in flight were started under the current configuration and inventory. */
  ghost predicate TicketsCurrent(s: State) {
    forall t :: Flying(s.runs, t) ==> CurrentGenerations(s, t)
  }

  ghost predicate HandshakeOk(h: Handshake) {
    h.awaiting.Some? ==> h.awaiting.value < h.nextReconciliationId
  }

  ghost predicate Inv(s: State) {
    if s.lifecycle == Unstarted then s == INITIAL
    else
      && Occupancy(s.runs) && TicketsCurrent(s)
      && ViewOk(s.view) && PaintOk(s.paint) && FeedOk(s.feed, []) && HandshakeOk(s.handshake)
      && (s.lifecycle != Running ==> Grounded(s.runs))
  }

  /** The run an event closes: a result or an acknowledgement that is accepted. */
  function Closed(e: SchedulerEvent, disposition: EventDisposition): Option<JobTicket> {
    if disposition == Accepted && (e.JobFinished? || e.JobCancelled?) then Some(e.ticket) else None
  }

  /** What an event does before dispatch: it starts nothing and closes at most its own run. */
  ghost predicate ArmOk(s: State, x: Step, gone: Option<JobTicket>) {
    && Occupancy(x.s.runs) && Sound(x) && TicketsCurrent(x.s) && HandshakeOk(x.s.handshake)
    && x.s.lifecycle != Unstarted && x.s.now == s.now
    && (x.s.lifecycle != Running ==> Grounded(x.s.runs))
    && x.s.runs.nextRunId == s.runs.nextRunId
    && (forall t :: Flying(x.s.runs, t) ==> Flying(s.runs, t))
    && (forall t :: Outstanding(x.s.runs, t) <==> Outstanding(s.runs, t) && gone != Some(t))
    && (forall a :: a in x.acts ==> !a.StartJob? && !a.ScheduleDeadline?)
  }

  /** Sound states the arms start from: the clock is already set to the event's time. */
  ghost predicate Ready(s: State) {
    && s.lifecycle != Unstarted && s.lifecycle != Stopped
    && Occupancy(s.runs) && TicketsCurrent(s) && Sound(Step(s, [])) && HandshakeOk(s.handshake)
    && (s.lifecycle != Running ==> Grounded(s.runs))
  }

  lemma CalmIsArmOk(s: State, x: Step)
    requires Ready(s) && Calm(Step(s, []), x)
    ensures ArmOk(s, x, None)
  {
    hide Occupancy, Sound, Filed;
  }

  lemma TimeFirstIsCalm(s: State)
    requires Occupancy(s.runs)
    ensures Calm(Step(s, []), TimeFirst(s))
  {
    hide Occupancy, Calm, ProcessTime;
    ProcessTimeIsCalm(Step(s, []));
    CalmSelf(Step(s, []));
  }

  // ----- results and acknowledgements

  lemma LandIsArmOk(s: State, x: Step, t: JobTicket, completion: CompletionKind, ready: bool)
    requires ArmOk(s, x, None) && Finishes(x.s, t)
    ensures ArmOk(s, Step(LandRun(x.s, t, completion), x.acts + CompletionActions(x.s, t, completion, ready)), Some(t))
  {
    hide Occupancy, CompletedJobs, CompletionActions;
    var y := Step(LandRun(x.s, t, completion), x.acts + CompletionActions(x.s, t, completion, ready));
    CompletionReleases(x.s.runs, t, completion, x.s.now);
    WithoutKeepsOccupancy(x.s.runs, t, y.s.runs);
  }

  lemma CalmAfterArm(s: State, x: Step, y: Step, gone: Option<JobTicket>)
    requires ArmOk(s, x, gone) && Calm(x, y)
    ensures ArmOk(s, y, gone)
  {
    hide Occupancy, Sound, Filed;
  }

  lemma FinishIsArmOk(s: State, x: Step, t: JobTicket, completion: CompletionKind, ready: bool)
    requires ArmOk(s, x, None) && Finishes(x.s, t)
    ensures ArmOk(s, FinishJob(x, t, completion, ready), Some(t))
  {
    hide ArmOk, Calm, Sound, LandRun, CompletionActions, PaintWhenReady, IssuePublish, Occupancy;
    LandIsArmOk(s, x, t, completion, ready);
    var y := Step(LandRun(x.s, t, completion), x.acts + CompletionActions(x.s, t, completion, ready));
    ArmFacts(s, y, Some(t));
    PaintWhenReadyIsCalm(y);
    var z := PaintWhenReady(y);
    CalmAfterArm(s, y, z, Some(t));
    ArmFacts(s, z, Some(t));
    RefreshWhenReadyIsCalm(z);
    CalmAfterArm(s, z, RefreshWhenReady(z), Some(t));
  }

  lemma ArmFacts(s: State, x: Step, gone: Option<JobTicket>)
    requires ArmOk(s, x, gone)
    ensures Occupancy(x.s.runs)
  {
  }

  lemma RefreshWhenReadyIsCalm(x: Step)
    requires Occupancy(x.s.runs)
    ensures Calm(x, RefreshWhenReady(x))
  {
    hide Occupancy, Calm, PaintOk, FeedOk, IssuePublish;
    CalmSelf(x);
    var y := Step(x.s.(view := x.s.view.(activationDeadline := None)), x.acts);
    KeepsIsCalm(x, y);
    PublishIsCalm(y, TooltipRefresh, None, 0, false, true);
    CalmChain(x, y, IssuePublish(y, TooltipRefresh, None, 0, false, true));
  }

  lemma AcknowledgeIsArmOk(s: State, x: Step, t: JobTicket)
    requires ArmOk(s, x, None) && Cancelling(x.s.runs, t)
    ensures ArmOk(s, Step(FinishCancellation(x.s, t), x.acts), Some(t))
  {
    hide Occupancy, ReleaseRun;
    AcknowledgementReleases(x.s.runs, t);
    WithoutKeepsOccupancy(x.s.runs, t, ReleaseRun(x.s.runs, t));
  }

  lemma CancellingStays(s: State, x: Step, t: JobTicket)
    requires ArmOk(s, x, None) && Cancelling(s.runs, t) && Occupancy(s.runs)
    ensures Cancelling(x.s.runs, t)
  {
    hide Sound;
    assert Outstanding(s.runs, t);
    assert Outstanding(x.s.runs, t);
  }

  lemma CompletionArm(s: State, t: JobTicket, completion: CompletionKind, ready: bool)
    requires Ready(s)
    ensures var (x, d) := ApplyCompletion(s, t, completion, ready);
      ArmOk(s, x, if d == Accepted then Some(t) else None)
  {
    hide ArmOk, Calm, Sound, Occupancy, TimeFirst, FinishJob, FinishCancellation, TicketsCurrent;
    var x := TimeFirst(s);
    TimeFirstIsCalm(s);
    CalmIsArmOk(s, x);
    if Cancelling(s.runs, t) {
      CancellingStays(s, x, t);
      AcknowledgeIsArmOk(s, x, t);
    } else if Finishes(x.s, t) {
      FinishIsArmOk(s, x, t, completion, ready);
    }
  }

  lemma CancelledArm(s: State, t: JobTicket)
    requires Ready(s)
    ensures var (x, d) := ApplyCancelled(s, t);
      ArmOk(s, x, if d == Accepted then Some(t) else None)
  {
    hide ArmOk, Calm, Sound, Occupancy, TimeFirst, FinishCancellation, TicketsCurrent;
    var x := TimeFirst(s);
    TimeFirstIsCalm(s);
    CalmIsArmOk(s, x);
    if Cancelling(x.s.runs, t) {
      AcknowledgeIsArmOk(s, x, t);
    }
  }

  // ----- lifecycle

  lemma SuspendArm(s: State)
    requires Ready(s)
    ensures ArmOk(s, SuspendNow(Step(s, [])), None)
  {
    hide Occupancy, CancelRuns, Filed, Moved;
    var x := Step(s, []);
    CancelIsCalm(x, s.runs.jobs.Keys, ForSuspend);
  }

  lemma StopArm(s: State, reason: CancelReason, component: Option<string>)
    requires Ready(s)
    ensures ArmOk(s, StopNow(Step(s, []), reason, component), None)
  {
    hide Occupancy, CancelRuns, Filed, Moved;
    CancelIsCalm(Step(s, []), s.runs.jobs.Keys, reason);
  }

  lemma ResumedKeeps(jobs: JobTable, demanded: set<JobId>, now: Time)
    ensures Keeps(jobs, ResumedJobs(jobs, demanded, now))
  {
    hide AdvancePast;
  }

  lemma AwakenedKeeps(s: State)
    ensures Keeps(s.runs.jobs, Awakened(s).runs.jobs)
    ensures Awakened(s).runs == s.runs.(jobs := Awakened(s).runs.jobs)
    ensures Awakened(s) == s.(lifecycle := Running, runs := Awakened(s).runs, paint := Awakened(s).paint)
    ensures PaintOk(s.paint) ==> PaintOk(Awakened(s).paint)
  {
  }

  lemma ResumeKeepsJobs(s: State)
    requires s.lifecycle == Suspended
    ensures var y := ResumeNow(Step(s, []));
      Keeps(s.runs.jobs, y.s.runs.jobs) && y.s.runs == s.runs.(jobs := y.s.runs.jobs)
  {
    hide Awakened, ResumedJobs, CurrentDemand;
    var s1 := Awakened(s);
    AwakenedKeeps(s);
    ResumedKeeps(s1.runs.jobs, CurrentDemand(s1), s1.now);
  }

  /** What else a resume changes: the lifecycle, the display deadline, the handshake and the actions. */
  lemma ResumeFrame(s: State)
    requires s.lifecycle == Suspended
    ensures var y := ResumeNow(Step(s, []));
      && y.s == s.(lifecycle := Running, runs := y.s.runs, paint := y.s.paint, handshake := y.s.handshake)
      && (PaintOk(s.paint) ==> PaintOk(y.s.paint)) && HandshakeOk(y.s.handshake)
      && (forall a :: a in y.acts ==> !a.StartJob? && !a.ScheduleDeadline?)
  {
    hide Awakened, ResumedJobs, CurrentDemand, PaintOk;
    AwakenedKeeps(s);
  }

  lemma ResumeArm(s: State)
    requires Ready(s)
    ensures ArmOk(s, ResumeNow(Step(s, [])), None)
  {
    hide Occupancy, Filed, ViewOk, PaintOk, FeedOk, Awakened, ResumedJobs, CurrentDemand;
    var y := ResumeNow(Step(s, []));
    if s.lifecycle == Suspended {
      hide ResumeNow;
      ResumeKeepsJobs(s);
      ResumeFrame(s);
      ResumeFeed(s);
      KeepsIsSteady(s.runs, y.s.runs.jobs);
      SteadyKeepsOccupancy(s.runs, y.s.runs);
      hide Keeps, Outstanding;
    } else {
      assert y == Step(s, []);
    }
  }

  lemma ResumeFeed(s: State)
    requires s.lifecycle == Suspended
    ensures FeedOk(s.feed, []) ==> FeedOk(ResumeNow(Step(s, [])).s.feed, ResumeNow(Step(s, [])).acts)
    ensures ResumeNow(Step(s, [])).s.feed == s.feed
  {
    hide ResumedJobs, CurrentDemand, Reanchored;
  }

  // ----- starting up

  lemma {:induction false} TableIsIdle(specs: seq<JobSpec>, anchor: Time, display: Time)
    ensures Idle(TableOf(specs, anchor, display))
  {
    if specs != [] {
      TableIsIdle(specs[..|specs| - 1], anchor, display);
    }
  }

  lemma EmptyOccupancy(jobs: JobTable)
    requires Idle(jobs)
    ensures var r := Runs(jobs, map[], map[], 1);
      Occupancy(r) && (forall t :: !Outstanding(r, t))
  {
    assert forall t :: !Outstanding(Runs(jobs, map[], map[], 1), t);
  }

  lemma StartupArm(config: SchedulerConfig, inventoryGeneration: nat, at: Time)
    ensures ArmOk(INITIAL.(now := at), StartUp(Step(INITIAL.(now := at), []), config, inventoryGeneration), None)
  {
    hide Occupancy, Calm, IssueFirstPaint, MarkJobs, Sampling, CurrentDemand, Idle, TableOf, StartupPanel, Keeps, Steady, Filed;
    var s0 := INITIAL.(now := at);
    var s1 := Started(s0, config, inventoryGeneration);
    TableIsIdle(config.jobs, at, at + config.displayInterval);
    EmptyOccupancy(s1.runs.jobs);
    EmptyOccupancy(map[]) by { EmptyIsIdle(); }
    var wanted := Sampling(CurrentDemand(s1), s1.runs.jobs);
    var waiting := s1.paint.firstPaintWaiting + StartupPanel(wanted, s1.runs.jobs);
    var y := Step(MarkJobs(s1, wanted).(paint := s1.paint.(firstPaintWaiting := waiting)), []);
    StartedIsArmOk(s0, Step(s1, []));
    WantedIsCalm(Step(s1, []), wanted, waiting);
    CalmAfterArm(s0, Step(s1, []), y, None);
    if waiting == {} {
      FirstPaintIsCalm(y, FirstPaintReady) by { ArmFacts(s0, y, None); }
      CalmAfterArm(s0, y, IssueFirstPaint(y, FirstPaintReady), None);
    }
  }

  lemma EmptyIsIdle()
    ensures Idle(map[])
  {
  }

  lemma StartedIsArmOk(s0: State, x: Step)
    requires s0.runs == INITIAL.runs && x.s.runs.nextRunId == 1
    requires Occupancy(x.s.runs) && (forall t :: !Outstanding(x.s.runs, t)) && (forall t :: !Outstanding(s0.runs, t))
    requires x.s.lifecycle == Running && x.s.now == s0.now && x.acts == []
    requires Sound(x) && HandshakeOk(x.s.handshake)
    ensures ArmOk(s0, x, None)
  {
    hide Occupancy, Sound;
    forall t
      ensures !Flying(x.s.runs, t)
    {
      assert !Outstanding(x.s.runs, t);
    }
  }

  lemma WantedIsCalm(x: Step, wanted: set<JobId>, waiting: set<JobId>)
    requires Occupancy(x.s.runs) && !x.s.paint.firstPaintIssued
    ensures Calm(x, Step(MarkJobs(x.s, wanted).(paint := x.s.paint.(firstPaintWaiting := waiting)), x.acts))
  {
    hide Occupancy, Calm, ViewOk, FeedOk;
    KeepsIsCalm(x, Step(MarkJobs(x.s, wanted).(paint := x.s.paint.(firstPaintWaiting := waiting)), x.acts));
  }

  // ----- new generations

  /** With nothing in flight, any generations will do. */
  lemma GroundedArm(s: State, x0: Step, x: Step)
    requires Ready(s) && x0.s.runs == s.runs && x0.s.lifecycle == s.lifecycle && x0.s.now == s.now && x0.acts == []
    requires Sound(x0) && HandshakeOk(x0.s.handshake)
    requires Calm(x0, x) && Grounded(x.s.runs)
    ensures ArmOk(s, x, None)
  {
    hide Occupancy, Sound, Filed;
  }

  lemma ReconfigureArm(s: State, config: SchedulerConfig)
    requires Ready(s)
    ensures ArmOk(s, Reconfigure(Step(s, []), config), None)
  {
    hide Occupancy, Calm, Sound, Reconfigure, ArmOk, Grounded, TicketsCurrent;
    var x0 := Step(Reset(s, config), []);
    ReconfigureIsCalm(Step(s, []), config);
    assert Sound(x0) by { ResetIsSound(Step(s, []), config); }
    GroundedArm(s, x0, Reconfigure(Step(s, []), config));
  }

  lemma InventoryArm(s: State, update: InventoryUpdate)
    requires Ready(s)
    ensures ArmOk(s, ChangeInventory(Step(s, []), update), None)
  {
    hide Occupancy, Calm, Sound, ChangeInventory, ArmOk, Grounded, TicketsCurrent;
    var x0 := Step(Inventoried(s, update), []);
    ChangeInventoryIsCalm(Step(s, []), update);
    assert Sound(x0) by { SoundFrame(Step(s, []), x0); }
    GroundedArm(s, x0, ChangeInventory(Step(s, []), update));
  }

  lemma AcknowledgePanelArm(s: State, publication: PublicationId)
    requires Ready(s)
    ensures ArmOk(s, Step(Acknowledge(s, publication), []), None)
  {
    hide Occupancy, ViewOk, PaintOk, Filed;
  }

  lemma TriggerArm(s: State, job: JobId)
    requires Ready(s)
    ensures ArmOk(s, ApplyTrigger(s, job), None)
  {
    hide Occupancy, Calm, Sound, TimeFirst, Ready, ArmOk, Sampling, CurrentDemand, MarkJobs;
    var x := TimeFirst(s);
    assert Occupancy(s.runs) by { ReadyFacts(s); }
    TimeFirstIsCalm(s);
    CalmIsArmOk(s, x);
    ArmFacts(s, x, None);
    MarkJobsIsCalm(x, Sampling({job} * CurrentDemand(x.s), x.s.runs.jobs));
    CalmAfterArm(s, x, ApplyTrigger(s, job), None);
  }

  lemma ReadyFacts(s: State)
    requires Ready(s)
    ensures Occupancy(s.runs)
  {
  }

  lemma RefreshArm(s: State, why: PublishReason, panel: bool, tooltip: bool)
    requires Ready(s)
    ensures ArmOk(s, IssuePublish(Step(s, []), why, None, 0, panel, tooltip), None)
  {
    hide ArmOk, Calm, Ready, Occupancy, IssuePublish;
    ReadyFacts(s);
    PublishIsCalm(Step(s, []), why, None, 0, panel, tooltip);
    CalmIsArmOk(s, IssuePublish(Step(s, []), why, None, 0, panel, tooltip));
  }

  lemma DemandArm(s: State, demand: DemandPlan)
    requires Ready(s)
    ensures ArmOk(s, ChangeDemand(Step(s, []), demand), None)
  {
    hide ArmOk, Calm, Ready, Occupancy, ChangeDemand;
    ReadyFacts(s);
    ChangeDemandIsCalm(Step(s, []), demand);
    CalmIsArmOk(s, ChangeDemand(Step(s, []), demand));
  }

  lemma PresentationArm(s: State, presented: bool)
    requires Ready(s)
    ensures ArmOk(s, ChangePresentation(Step(s, []), presented), None)
  {
    hide ArmOk, Calm, Ready, Occupancy, ChangePresentation;
    ReadyFacts(s);
    ChangePresentationIsCalm(Step(s, []), presented);
    CalmIsArmOk(s, ChangePresentation(Step(s, []), presented));
  }

  lemma ReactivationArm(s: State)
    requires Ready(s)
    ensures ArmOk(s, if s.view.presented then RefreshActivation(Step(s, [])) else Step(s, []), None)
  {
    hide ArmOk, Calm, Ready, Occupancy, RefreshActivation;
    ReadyFacts(s);
    CalmSelf(Step(s, []));
    CalmIsArmOk(s, Step(s, []));
    RefreshActivationIsCalm(Step(s, []));
    CalmIsArmOk(s, RefreshActivation(Step(s, [])));
  }

  lemma PageArm(s: State, page: PageId)
    requires Ready(s)
    ensures ArmOk(s, ChangePage(Step(s, []), page), None)
  {
    hide ArmOk, Calm, Ready, Occupancy, ChangePage;
    ReadyFacts(s);
    ChangePageIsCalm(Step(s, []), page);
    CalmIsArmOk(s, ChangePage(Step(s, []), page));
  }

  lemma TimeArm(s: State)
    requires Ready(s)
    ensures ArmOk(s, TimeFirst(s), None)
  {
    hide ArmOk, Calm, Ready, Occupancy, TimeFirst;
    ReadyFacts(s);
    TimeFirstIsCalm(s);
    CalmIsArmOk(s, TimeFirst(s));
  }

  /** Every event of a started scheduler starts nothing by itself and closes at most its own run. */
  lemma ApplyIsArmOk(s: State, e: SchedulerEvent)
    requires Ready(s) && !e.Startup?
    ensures var (x, d) := Apply(s, e); ArmOk(s, x, Closed(e, d))
  {
    hide ArmOk, Ready, StartUp, Reconfigure, ChangeInventory, ChangeDemand, ChangePresentation, RefreshActivation, ChangePage,
         IssuePublish, ApplyCompletion, ApplyCancelled, ApplyTrigger, SuspendNow, ResumeNow, StopNow, TimeFirst, Acknowledge;
    match e
    case TimeAdvanced(_) => TimeArm(s);
    case ConfigChanged(_, config) => ReconfigureArm(s, config);
    case InventoryChanged(_, update) => InventoryArm(s, update);
    case DemandChanged(_, demand) => DemandArm(s, demand);
    case TooltipPresented(_, presented) => PresentationArm(s, presented);
    case TooltipReactivated(_) => ReactivationArm(s);
    case SelectedPageChanged(_, page) => PageArm(s, page);
    case DisplayRefreshRequested(_) => RefreshArm(s, ConfigReload, true, s.view.effectivePresented);
    case TooltipRefreshRequested(_) => RefreshArm(s, TooltipRefresh, false, true);
    case JobFinished(_, t, completion, ready) => CompletionArm(s, t, completion, ready);
    case JobCancelled(_, t) => CancelledArm(s, t);
    case RefreshTriggered(_, job) => TriggerArm(s, job);
    case PanelPublished(_, publication) => AcknowledgePanelArm(s, publication);
    case Suspend(_) => SuspendArm(s);
    case Resume(_) => ResumeArm(s);
    case Shutdown(_) => StopArm(s, ForShutdown, None);
    case CriticalFailure(_, component) => StopArm(s, ForCriticalFailure, Some(component));
  }
}
