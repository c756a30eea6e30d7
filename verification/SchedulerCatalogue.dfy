/** Runs over the job lists that the catalogue builds (src/sensors/catalog.rs and its gpu submodule): every job
    is listed once, and a history is drawn from a listed job that is itself drawn from nothing. */
module SchedulerCatalogue {
  import opened Wrappers
  import opened SchedulerPolicy
  import opened SchedulerModel
  import opened SchedulerSpec
  import opened SchedulerInvariant
  import opened SchedulerRuns
  import opened SchedulerHistory
  import opened SchedulerResults
  import opened SchedulerSources

  // ----- job lists

  /** No listed job is drawn from a job that is itself drawn from another. */
  predicate DirectList(specs: seq<JobSpec>) {
    forall i, j :: 0 <= i < |specs| && 0 <= j < |specs| && specs[i].historySource == Some(specs[j].id) ==>
      specs[j].historySource.None?
  }

  /** A job that no change of configuration or hardware gives another source. */
  predicate Plain(spec: JobSpec) {
    spec.historySource.None? && spec.amd.None?
  }

  /** Every history's source is listed, and plain. */
  predicate RootedList(specs: seq<JobSpec>) {
    forall i :: 0 <= i < |specs| && specs[i].historySource.Some? ==>
      exists j :: 0 <= j < |specs| && specs[j].id == specs[i].historySource.value && Plain(specs[j])
  }

  /** The job lists of an event name every job once, as the catalogue's map of jobs does. */
  ghost predicate DistinctEvent(e: SchedulerEvent) {
    Reloads(e) ==> DistinctIds(ListedJobs(e))
  }

  function ListedJobs(e: SchedulerEvent): seq<JobSpec>
    requires Reloads(e)
  {
    if e.Startup? then e.config.jobs else ReloadedJobs(e)
  }

  predicate DirectTable(jobs: JobTable) {
    forall id :: id in jobs && jobs[id].spec.historySource.Some? && jobs[id].spec.historySource.value in jobs ==>
      jobs[jobs[id].spec.historySource.value].spec.historySource.None?
  }

  predicate RootedTable(jobs: JobTable) {
    forall id :: id in jobs && jobs[id].spec.historySource.Some? ==>
      jobs[id].spec.historySource.value in jobs && Plain(jobs[jobs[id].spec.historySource.value].spec)
  }

  /** The table holds exactly the listed jobs. */
  ghost predicate SpecsAre(jobs: JobTable, specs: seq<JobSpec>) {
    && jobs.Keys == IdsOf(specs)
    && forall i :: 0 <= i < |specs| ==> specs[i].id in jobs && jobs[specs[i].id].spec == specs[i]
  }

  lemma TableOfList(jobs: JobTable, specs: seq<JobSpec>)
    requires SpecsAre(jobs, specs)
    ensures DirectList(specs) ==> DirectTable(jobs)
    ensures RootedList(specs) ==> RootedTable(jobs)
  {
    forall id | id in jobs
      ensures exists i :: 0 <= i < |specs| && specs[i].id == id && jobs[id].spec == specs[i]
    {
      var i :| 0 <= i < |specs| && specs[i].id == id;
    }
  }

  // ----- which jobs the table holds

  /** The same jobs with the same specifications. */
  ghost predicate SameSpecs(a: JobTable, b: JobTable) {
    a.Keys == b.Keys && forall id :: id in a ==> b[id].spec == a[id].spec
  }

  lemma ReloadedSpecs(specs: seq<JobSpec>, landed: JobTable, table: JobTable, now: Time, display: Time, jobs: JobTable, demanded: set<JobId>)
    requires TableIs(table, landed, specs, now, display) && PendingWithin(table, jobs, demanded)
    ensures SpecsAre(jobs, specs)
  {
    hide Placed;
    forall i | 0 <= i < |specs|
      ensures specs[i].id in jobs && jobs[specs[i].id].spec == specs[i]
    {
      PlacedPending(landed, specs[i], now, display);
    }
  }

  lemma ReconfigureSpecs(x: Step, config: SchedulerConfig)
    requires DistinctIds(config.jobs)
    ensures SpecsAre(Reconfigure(x, config).s.runs.jobs, config.jobs)
  {
    hide ReplaceJobs, Reconfigure, SamePending, TableIs, DemandRefreshed, Landed, SpecsAre;
    var x1 := Step(Reset(x.s, config), x.acts);
    var x2 := ReplaceJobs(x1, config.jobs, ConfigReplaced);
    ReplaceJobsTable(x1, config.jobs, ConfigReplaced);
    ReconfigurePending(x, config, x2);
    var demanded := config.demand.Demanded(x.s.view.effectivePresented, x.s.view.selectedPage);
    var landed := Landed(x.s.runs.jobs, x.s.runs.jobs.Keys);
    var table :| TableIs(table, landed, config.jobs, x.s.now, DisplayAnchor(x1.s)) && SamePending(table, x2.s.runs.jobs);
    var b :| SamePending(x2.s.runs.jobs, b)
      && SamePending(DemandRefreshed(b, demanded, x2.s.now), Reconfigure(x, config).s.runs.jobs);
    PendingChain(table, x2.s.runs.jobs, b);
    RefreshedPending(table, b, Reconfigure(x, config).s.runs.jobs, demanded, x2.s.now);
    ReloadedSpecs(config.jobs, landed, table, x.s.now, DisplayAnchor(x1.s), Reconfigure(x, config).s.runs.jobs, demanded);
  }

  lemma InventorySpecs(x: Step, update: InventoryUpdate)
    requires DistinctIds(update.jobs)
    ensures SpecsAre(ChangeInventory(x, update).s.runs.jobs, update.jobs)
  {
    hide ReplaceJobs, ChangeInventory, SamePending, TableIs, DemandRefreshed, Landed, SpecsAre;
    var x1 := Step(x.s.(settings := x.s.settings.(inventoryGeneration := update.generation, demand := update.demand)), x.acts);
    var x2 := ReplaceJobs(x1, update.jobs, SourceReplaced);
    ReplaceJobsTable(x1, update.jobs, SourceReplaced);
    InventoryPending(x, update, x2);
    var demanded := update.demand.Demanded(x.s.view.effectivePresented, x.s.view.selectedPage);
    var landed := Landed(x.s.runs.jobs, x.s.runs.jobs.Keys);
    var table :| TableIs(table, landed, update.jobs, x.s.now, DisplayAnchor(x1.s)) && SamePending(table, x2.s.runs.jobs);
    var b :| SamePending(x2.s.runs.jobs, b)
      && SamePending(DemandRefreshed(b, demanded, x2.s.now), ChangeInventory(x, update).s.runs.jobs);
    PendingChain(table, x2.s.runs.jobs, b);
    RefreshedPending(table, b, ChangeInventory(x, update).s.runs.jobs, demanded, x2.s.now);
    ReloadedSpecs(update.jobs, landed, table, x.s.now, DisplayAnchor(x1.s), ChangeInventory(x, update).s.runs.jobs, demanded);
  }

  /** A new job table, nothing of which is pending. */
  ghost predicate Unpending(jobs: JobTable) {
    forall id :: id in jobs ==> jobs[id].pendingHistoryDeadline.None?
  }

  lemma {:induction false} TableOfSpecs(specs: seq<JobSpec>, anchor: Time, display: Time)
    ensures Unpending(TableOf(specs, anchor, display))
    ensures DistinctIds(specs) ==> SpecsAre(TableOf(specs, anchor, display), specs)
  {
    if specs == [] {
      NoIds();
    } else {
      var last := |specs| - 1;
      TableOfSpecs(specs[..last], anchor, display);
      IdsSplit(specs);
      if DistinctIds(specs) { LastIsNew(specs); }
    }
  }

  lemma StartUpTable(x: Step, config: SchedulerConfig, inventory: nat)
    ensures var y := StartUp(x, config, inventory).s.runs.jobs;
      Unpending(y) && (DistinctIds(config.jobs) ==> SpecsAre(y, config.jobs))
  {
    hide IssueFirstPaint, TableOf, CurrentDemand, IdsOf;
    var s1 := Started(x.s, config, inventory);
    TableOfSpecs(config.jobs, x.s.now, x.s.now + config.displayInterval);
    var wanted := Sampling(CurrentDemand(s1), s1.runs.jobs);
    var waiting := s1.paint.firstPaintWaiting + StartupPanel(wanted, s1.runs.jobs);
    var x2 := Step(MarkJobs(s1, wanted).(paint := s1.paint.(firstPaintWaiting := waiting)), x.acts);
    FirstPaintPending(x2, FirstPaintReady);
  }

  /** After an accepted start or reload the table holds exactly the jobs the event lists. */
  lemma ReloadListsJobs(s: State, e: SchedulerEvent)
    requires EarlyRejection(s, e).None? && Reloads(e) && DistinctIds(ListedJobs(e))
    ensures SpecsAre(Handle(s, e).s.runs.jobs, ListedJobs(e))
  {
    hide Handle, Settle, EarlyRejection, SpecsAre, Reconfigure, ChangeInventory, StartUp;
    var s' := s.(now := e.at);
    var (x, d) := Apply(s', e);
    match e {
      case Startup(_, config, inventory) => StartUpTable(Step(s', []), config, inventory);
      case ConfigChanged(_, config) => ReconfigureSpecs(Step(s', []), config);
      case InventoryChanged(_, update) => InventorySpecs(Step(s', []), update);
    }
    HandleIsSettled(s, e);
    SettleSame(x, d);
    SpecsFrame(x.s.runs.jobs, Settle(x, d).s.runs.jobs, ListedJobs(e));
  }

  lemma SpecsFrame(a: JobTable, b: JobTable, specs: seq<JobSpec>)
    requires SameResults(a, b) && SpecsAre(a, specs)
    ensures SpecsAre(b, specs)
  {
  }

  /** Any other event leaves the list of jobs alone. */
  lemma OthersKeepJobs(s: State, e: SchedulerEvent)
    requires !Reloads(e)
    ensures SameSpecs(s.runs.jobs, Handle(s, e).s.runs.jobs)
  {
    hide Handle, Applies, Reloads;
    if e.JobFinished? && Applies(s, e, e.ticket) {
      ResultChangesOnlyItsJob(s, e, e.ticket);
    } else {
      OnlyResultsTouchSamples(s, e);
    }
  }

  lemma SameSpecsTables(a: JobTable, b: JobTable)
    requires SameSpecs(a, b)
    ensures DirectTable(a) ==> DirectTable(b)
    ensures RootedTable(a) ==> RootedTable(b)
  {
  }

  // ----- one event

  /** A start leaves nothing pending, so every pending history deadline has a sample behind it. */
  lemma StartIsSourced(s: State, e: SchedulerEvent)
    requires Inv(s) && EarlyRejection(s, e).None? && e.Startup? && WellFormedEvent(e)
    ensures Sourced(Handle(s, e).s.runs.jobs)
  {
    hide Handle, Settle, EarlyRejection, HistoryOk, Inv, ArmOk, StartUp, AllWellFormed;
    ApplyFollows(s, e);
    var s' := s.(now := e.at);
    var (x, d) := Apply(s', e);
    StartUpTable(Step(s', []), e.config, e.inventoryGeneration);
    StartUpHistory(Step(s', []), e.config, e.inventoryGeneration);
    ArmGivesSettle(s', x, Closed(e, d));
    SettleSourced(x, d);
    HandleIsSettled(s, e);
  }

  /** Under a direct table no absence is chained. */
  lemma DirectIsNeverChained(s: State, at: Time, absent: JobId)
    requires DirectTable(s.runs.jobs)
    ensures !ChainedAt(s, at, absent)
  {
    hide PendingAt;
  }

  /** When no job is drawn from a drawn one, an absence always keeps a sample behind every pending history
      deadline, so only reloads can fail to. */
  lemma HandleKeepsSourced(s: State, e: SchedulerEvent)
    requires Inv(s) && WellFormedEvent(e) && HistoryOk(s.runs.jobs, s.now)
    requires Sourced(s.runs.jobs) && DirectTable(s.runs.jobs)
    requires (e.ConfigChanged? || e.InventoryChanged?) && EarlyRejection(s, e).None? ==>
      DistinctIds(ReloadedJobs(e)) && SourcesStay(s.runs.jobs, ReloadedJobs(e), ReloadedDemand(s, e))
    ensures Sourced(Handle(s, e).s.runs.jobs)
  {
    hide Handle, EarlyRejection, HistoryOk, Sourced, Inv, Applies, SourcesStay, ChainedAt, DirectTable, WellFormedEvent, DistinctIds;
    if EarlyRejection(s, e).Some? {
      HandleRejected(s, e);
    } else if e.Startup? {
      StartIsSourced(s, e);
    } else if e.ConfigChanged? || e.InventoryChanged? {
      ReloadKeepsSourcedIffSourcesStay(s, e);
    } else if e.JobFinished? && e.completion == ConfirmedAbsent && Applies(s, e, e.ticket) {
      AbsenceKeepsSourcedUnlessChained(s, e, e.ticket);
      DirectIsNeverChained(s, e.at, e.ticket.job);
    } else {
      QuietKeepsSourced(s, e);
    }
  }

  // ----- runs

  ghost predicate ListsOk(e: SchedulerEvent) {
    WellFormedEvent(e) && DistinctEvent(e) && (Reloads(e) ==> DirectList(ListedJobs(e)))
  }

  /** The event's job lists are such as the catalogue builds. */
  ghost predicate Catalogued(e: SchedulerEvent) {
    WellFormedEvent(e) && DistinctEvent(e) && (Reloads(e) ==> RootedList(ListedJobs(e)))
  }

  lemma HandleKeepsTables(s: State, e: SchedulerEvent)
    requires DistinctEvent(e)
    ensures (Reloads(e) ==> DirectList(ListedJobs(e))) && DirectTable(s.runs.jobs) ==> DirectTable(Handle(s, e).s.runs.jobs)
    ensures (Reloads(e) ==> RootedList(ListedJobs(e))) && RootedTable(s.runs.jobs) ==> RootedTable(Handle(s, e).s.runs.jobs)
  {
    hide Handle, EarlyRejection, DirectTable, RootedTable, DirectList, RootedList, SpecsAre, DistinctIds;
    if EarlyRejection(s, e).Some? {
      HandleRejected(s, e);
    } else if Reloads(e) {
      ReloadListsJobs(s, e);
      TableOfList(Handle(s, e).s.runs.jobs, ListedJobs(e));
    } else {
      OthersKeepJobs(s, e);
      SameSpecsTables(s.runs.jobs, Handle(s, e).s.runs.jobs);
    }
  }

  /** The reload, if `e` is one and accepted in `s`, keeps the sources of the pending histories it keeps. */
  ghost predicate ReloadKeepsSources(s: State, e: SchedulerEvent) {
    (e.ConfigChanged? || e.InventoryChanged?) && EarlyRejection(s, e).None? ==>
      SourcesStay(s.runs.jobs, ReloadedJobs(e), ReloadedDemand(s, e))
  }

  /** Over every run in which no listed job is drawn from a drawn one and every reload keeps the sources of the
      pending histories it keeps, each pending history deadline has a sample behind it. */
  lemma {:induction false} RunKeepsSourced(events: seq<SchedulerEvent>)
    requires forall n :: 0 <= n < |events| ==> ListsOk(events[n])
    requires forall n :: 0 <= n < |events| ==> ReloadKeepsSources(Run(INITIAL, events[..n]), events[n])
    ensures var jobs := Run(INITIAL, events).runs.jobs; Sourced(jobs) && DirectTable(jobs)
  {
    hide Handle, Inv, HistoryOk, WellFormedEvent, DirectTable, Sourced, DirectList, DistinctIds, SourcesStay, EarlyRejection, Reloads;
    if events == [] {
      NothingSourced();
    } else {
      var last, front := events[|events| - 1], events[..|events| - 1];
      forall n | 0 <= n < |front|
        ensures ListsOk(front[n]) && ReloadKeepsSources(Run(INITIAL, front[..n]), front[n])
      {
        assert front[n] == events[n] && front[..n] == events[..n];
      }
      RunKeepsSourced(front);
      RunKeepsHistory(front);
      InitialInvariant();
      RunKeepsInvariant(INITIAL, front);
      ReloadIsDistinct(last);
      HandleKeepsSourced(Run(INITIAL, front), last);
      HandleKeepsTables(Run(INITIAL, front), last);
    }
  }

  lemma ReloadIsDistinct(e: SchedulerEvent)
    requires DistinctEvent(e)
    ensures e.ConfigChanged? || e.InventoryChanged? ==> DistinctIds(ReloadedJobs(e))
  {
    hide DistinctIds;
  }

  lemma NothingSourced()
    ensures Sourced(map[]) && DirectTable(map[]) && RootedTable(map[])
  {
  }

  lemma RootedIsDirect(jobs: JobTable)
    requires RootedTable(jobs)
    ensures DirectTable(jobs)
  {
  }

  /** A history whose source is plain and sampled keeps it over a reload that lists it with a plain source. */
  lemma RootedSourcesStay(jobs: JobTable, now: Time, specs: seq<JobSpec>, demanded: set<JobId>)
    requires HistoryOk(jobs, now) && Sourced(jobs) && RootedTable(jobs) && RootedList(specs)
    ensures SourcesStay(jobs, specs, demanded)
  {
    hide HistoryTimes, WellFormed;
    forall i | 0 <= i < |specs| && KeepsPending(jobs, specs[i], demanded)
      ensures SourceStays(jobs, specs, specs[i])
    {
      if specs[i].historySource.Some? {
        assert HistoryReady(jobs[specs[i].id].spec, jobs);
        var j :| 0 <= j < |specs| && specs[j].id == specs[i].historySource.value && Plain(specs[j]);
        assert !SourceChanged(jobs[specs[j].id].spec, specs[j]);
      }
    }
  }

  /** Over every run of job lists such as the catalogue builds, each pending history deadline has a sample
      behind it: no absence and no reload ever leaves one without. */
  lemma {:induction false} CataloguedRunKeepsSourced(events: seq<SchedulerEvent>)
    requires forall n :: 0 <= n < |events| ==> Catalogued(events[n])
    ensures var jobs := Run(INITIAL, events).runs.jobs; Sourced(jobs) && RootedTable(jobs)
  {
    hide Handle, Inv, HistoryOk, WellFormedEvent, DirectTable, RootedTable, Sourced, RootedList, DistinctIds, SourcesStay, EarlyRejection, Reloads;
    if events == [] {
      NothingSourced();
    } else {
      var last, front := events[|events| - 1], events[..|events| - 1];
      var s := Run(INITIAL, front);
      CataloguedRunKeepsSourced(front);
      RunKeepsHistory(front);
      InitialInvariant();
      RunKeepsInvariant(INITIAL, front);
      RootedIsDirect(s.runs.jobs);
      if last.ConfigChanged? || last.InventoryChanged? {
        ReloadIsRooted(last);
        RootedSourcesStay(s.runs.jobs, s.now, ReloadedJobs(last), ReloadedDemand(s, last));
      }
      ReloadIsDistinct(last);
      HandleKeepsSourced(s, last);
      HandleKeepsTables(s, last);
    }
  }

  lemma ReloadIsRooted(e: SchedulerEvent)
    requires Catalogued(e) && (e.ConfigChanged? || e.InventoryChanged?)
    ensures RootedList(ReloadedJobs(e))
  {
    hide RootedList;
  }
}
