/** The scheduler as the source writes it: one object whose methods update its fields in place and push
    actions as they go (src/scheduler/machine.rs and its demand and publication submodules). Every method
    is proved to carry out its counterpart in `SchedulerSpec` on the abstract state `Model()`. Fields that
    change together are grouped into one record-valued field; the loops are the source's. */
module SchedulerMachine {
  import opened Arithmetic
  import opened Wrappers
  import opened SchedulerPolicy
  import opened SchedulerModel
  import opened SchedulerSpec
  import opened SchedulerLoops
  import opened SchedulerInvariant
  import opened SchedulerRuns

  class Scheduler {
    var lifecycle: Lifecycle
    var now: Time
    var settings: Settings
    var runs: Runs
    var view: View
    var paint: Paint
    var feed: Feed
    var handshake: Handshake

    function Model(): State
      reads this
    {
      State(lifecycle, now, settings, runs, view, paint, feed, handshake)
    }

    /** The invariant of `SchedulerInvariant`. */
    ghost predicate Valid()
      reads this
    {
      Inv(Model())
    }

    constructor ()
      ensures Model() == INITIAL && Valid()
    {
      lifecycle, now := Unstarted, 0;
      settings := Settings(0, 0, 1_000_000_000, DemandPlan({}, {}, map[]));
      runs := Runs(map[], map[], map[], 1);
      view := View(false, false, Main, None, None, {});
      paint := Paint(None, None, {}, false);
      feed := Feed({}, 1, false);
      handshake := Handshake(None, 1);
    }

    function Demanded(): set<JobId>
      reads this
      ensures Demanded() == CurrentDemand(Model())
    {
      settings.demand.Demanded(view.effectivePresented, view.selectedPage)
    }

    static method Listing(keys: set<JobId>) returns (ids: seq<JobId>)
      ensures Lists(ids, keys)
      ensures forall i :: 0 <= i < |ids| ==> ids[i] in keys
    {
      ids := InOrder(keys);
    }

    // ----- publications

    /** Whether some action already publishes the tooltip, and where the first tooltip refresh is. */
    static method FindRefresh(acts: seq<SchedulerAction>) returns (published: bool, first: nat)
      ensures published == HasTooltipPublication(acts)
      ensures first == FirstRefresh(acts)
    {
      published, first := false, |acts|;
      for i := 0 to |acts|
        invariant published <==> exists j :: 0 <= j < i && IsTooltipPublication(acts[j])
        invariant first == |acts| || first < i
        invariant first < |acts| ==> IsTooltipRefresh(acts[first])
        invariant forall j :: 0 <= j < i && j < first ==> !IsTooltipRefresh(acts[j])
      {
        if IsTooltipPublication(acts[i]) {
          published := true;
          if acts[i].why == TooltipRefresh && first == |acts| { first := i; }
        }
      }
    }

    method IssuePublish(acts: seq<SchedulerAction>, why: PublishReason, deadline: Option<Time>, skipped: nat,
                        panel: bool, wantTooltip: bool)
      returns (out: seq<SchedulerAction>)
      modifies this`feed
      ensures Step(Model(), out)
           == SchedulerSpec.IssuePublish(Step(old(Model()), acts), why, deadline, skipped, panel, wantTooltip)
    {
      hide HasTooltipPublication, FirstRefresh;
      out := acts;
      var tooltip := wantTooltip && view.presented;
      if !panel && !tooltip {
        return;
      }
      var published, first := FindRefresh(acts);
      if why == TooltipRefresh && published {
        return;
      }
      if panel && tooltip && first < |acts| {
        out := acts[first := acts[first].(why := why, displayDeadline := deadline, skipped := skipped, panel := true, tooltip := true)];
        feed := feed.(panelPublications := feed.panelPublications + {acts[first].publication});
        return;
      }
      var publication := feed.nextPublicationId;
      feed := feed.(nextPublicationId := publication + 1);
      if panel {
        feed := feed.(panelPublications := feed.panelPublications + {publication});
      }
      out := acts + [PublishDisplay(publication, why, deadline, skipped, panel, tooltip)];
    }

    method ReanchorFastJobs()
      modifies this`runs
      ensures Model() == SchedulerSpec.ReanchorFastJobs(old(Model()))
    {
      hide Lists, Done;
      if paint.nextDisplay.None? {
        return;
      }
      var due := SaturatingSub(paint.nextDisplay.value, FAST_PREFETCH);
      ghost var table, target := runs.jobs, Reanchored(runs.jobs, due);
      var ids := Listing(runs.jobs.Keys);
      DoneNone(ids, table.Keys, table, target);
      for i := 0 to |ids|
        invariant runs == old(runs).(jobs := runs.jobs)
        invariant Done(ids, i, table, runs.jobs, target)
      {
        DoneOneMore(ids, i, table, runs.jobs, target);
        if runs.jobs[ids[i]].spec.timing == FastDisplay {
          runs := runs.(jobs := runs.jobs[ids[i] := runs.jobs[ids[i]].(nominalDue := Some(due))]);
        }
      }
      DoneAll(ids, table, runs.jobs, target);
    }

    method IssueFirstPaint(acts: seq<SchedulerAction>, why: PublishReason) returns (out: seq<SchedulerAction>)
      modifies this`paint, this`runs, this`feed
      ensures Step(Model(), out) == SchedulerSpec.IssueFirstPaint(Step(old(Model()), acts), why)
    {
      hide SchedulerSpec.IssuePublish, AdvancePast, DueIntervals, SchedulerSpec.ReanchorFastJobs;
      if paint.firstPaintIssued {
        out := acts;
        return;
      }
      paint := paint.(firstPaintIssued := true, firstPaintDeadline := None, firstPaintWaiting := {});
      var skipped := if paint.nextDisplay.Some? then DueIntervals(paint.nextDisplay.value, settings.displayInterval, now) else 0;
      if paint.nextDisplay.Some? && paint.nextDisplay.value <= now {
        paint := paint.(nextDisplay := Some(AdvancePast(paint.nextDisplay.value, settings.displayInterval, now)));
        ReanchorFastJobs();
      }
      out := IssuePublish(acts, why, None, skipped, true, view.effectivePresented);
    }

    // ----- cancellation and demand

    /** `runtime.in_flight.take()`, with the run put among those being cancelled. */
    method TakeRun(id: JobId, acts: seq<SchedulerAction>, reason: CancelReason) returns (out: seq<SchedulerAction>)
      requires id in runs.jobs && runs.jobs[id].inFlight.Some?
      modifies this`runs
      ensures var rt := old(runs.jobs[id]);
        && runs == old(runs).(jobs := old(runs.jobs)[id := rt.(inFlight := None)],
                              cancelling := old(runs.cancelling)[rt.inFlight.value.runId := rt.inFlight.value])
        && out == acts + [CancelJob(rt.inFlight.value, reason)]
    {
      var ticket := runs.jobs[id].inFlight.value;
      runs := runs.(jobs := runs.jobs[id := runs.jobs[id].(inFlight := None)],
                    cancelling := runs.cancelling[ticket.runId := ticket]);
      out := acts + [CancelJob(ticket, reason)];
    }

    method CancelAll(acts: seq<SchedulerAction>, reason: CancelReason) returns (out: seq<SchedulerAction>)
      modifies this`runs
      ensures Step(Model(), out) == SchedulerSpec.CancelAll(Step(old(Model()), acts), reason)
    {
      hide Lists, Done, Sweeping, InFlightTickets, AddTickets, CancelActions, Landed, CancelRuns, Moved;
      ghost var keep, target := runs.jobs.Keys, Landed(runs.jobs, runs.jobs.Keys);
      var ids := Listing(runs.jobs.Keys);
      out := acts;
      LandedNone(ids, runs.jobs.Keys, runs.jobs, runs.jobs, keep);
      SweepNone(ids, keep, reason, target, runs, acts);
      for i := 0 to |ids|
        invariant Sweeping(ids, i, keep, reason, target, old(runs), acts, runs, out)
      {
        SweepKnows(ids, i, keep, reason, target, old(runs), acts, runs, out);
        LandedAt(old(runs.jobs), keep, ids[i]);
        if runs.jobs[ids[i]].inFlight.Some? {
          SweepCancels(ids, i, keep, reason, target, old(runs), acts, runs, out);
          out := TakeRun(ids[i], out, reason);
        } else {
          SweepPasses(ids, i, keep, reason, target, old(runs), acts, runs, out);
        }
      }
      SweepAll(ids, keep, keep, keep, reason, old(runs.jobs), old(runs), acts, runs, out);
    }

    method RefreshDemand(acts: seq<SchedulerAction>, cancelPageJobs: bool) returns (out: seq<SchedulerAction>)
      modifies this`runs
      ensures Step(Model(), out) == SchedulerSpec.RefreshDemand(Step(old(Model()), acts), cancelPageJobs)
    {
      hide Lists, Done, Sweeping, InFlightTickets, AddTickets, CancelActions, Landed, CancelRuns, Moved, DemandRefreshed, SameRuns;
      hide DemandPlan.Demanded;
      var demanded := Demanded();
      ghost var mid := DemandRefreshed(runs.jobs, demanded, now);
      ghost var keep := if cancelPageJobs then PageWork(runs.jobs.Keys - demanded) else {};
      ghost var target := Landed(mid, keep);
      var ids := Listing(runs.jobs.Keys);
      out := acts;
      DemandRefreshedRuns(runs.jobs, demanded, now);
      LandedNone(ids, runs.jobs.Keys, runs.jobs, mid, keep);
      SweepNone(ids, keep, DemandEnded, target, runs, acts);
      for i := 0 to |ids|
        invariant Sweeping(ids, i, keep, DemandEnded, target, old(runs), acts, runs, out)
      {
        SweepKnows(ids, i, keep, DemandEnded, target, old(runs), acts, runs, out);
        DemandRefreshedAt(old(runs.jobs), demanded, now, keep, ids[i]);
        var id := ids[i];
        var rt := runs.jobs[id];
        if id in keep && rt.inFlight.Some? {
          SweepCancels(ids, i, keep, DemandEnded, target, old(runs), acts, runs, out);
          Overwrite(runs.jobs, id, Rested(rt), Rested(rt).(inFlight := None));
        } else {
          SweepPasses(ids, i, keep, DemandEnded, target, old(runs), acts, runs, out);
        }
        if id in demanded {
          if rt.spec.timing != History && rt.inFlight.None? && !rt.hasSample {
            runs := runs.(jobs := runs.jobs[id := rt.MarkPending(now)]);
          }
        } else {
          runs := runs.(jobs := runs.jobs[id := Rested(rt)]);
          if cancelPageJobs && IsCancelledPageWork(id) && rt.inFlight.Some? {
            out := TakeRun(id, out, DemandEnded);
          }
        }
      }
      SweepAll(ids, old(runs.jobs.Keys), keep, keep, DemandEnded, mid, old(runs), acts, runs, out);
      CancelNothing(old(runs).(jobs := mid), DemandEnded);
    }

    method CancelDemandEnded(acts: seq<SchedulerAction>, before: set<JobId>, after: set<JobId>)
      returns (out: seq<SchedulerAction>)
      modifies this`runs
      ensures Step(Model(), out) == SchedulerSpec.CancelDemandEnded(Step(old(Model()), acts), before, after)
    {
      hide Lists, Done, Sweeping, InFlightTickets, AddTickets, CancelActions, Landed, CancelRuns, Moved, AllRested, SameRuns;
      var ended := PageWork(before - after);
      ghost var mid, keep := AllRested(runs.jobs, ended), ended * runs.jobs.Keys;
      ghost var target := Landed(mid, ended);
      var ids := Listing(ended);
      out := acts;
      RestedRuns(runs.jobs, ended);
      LandedNone(ids, ended, runs.jobs, mid, ended);
      SweepNone(ids, keep, DemandEnded, target, runs, acts);
      for i := 0 to |ids|
        invariant Sweeping(ids, i, keep, DemandEnded, target, old(runs), acts, runs, out)
      {
        SweepKnows(ids, i, keep, DemandEnded, target, old(runs), acts, runs, out);
        var id := ids[i];
        if id in runs.jobs {
          RestedAt(old(runs.jobs), ended, id);
          var rt := runs.jobs[id];
          if rt.inFlight.Some? {
            SweepCancels(ids, i, keep, DemandEnded, target, old(runs), acts, runs, out);
            Overwrite(runs.jobs, id, Rested(rt), Rested(rt).(inFlight := None));
          } else {
            SweepPasses(ids, i, keep, DemandEnded, target, old(runs), acts, runs, out);
          }
          runs := runs.(jobs := runs.jobs[id := Rested(rt)]);
          if rt.inFlight.Some? {
            out := TakeRun(id, out, DemandEnded);
          }
        } else {
          SweepPasses(ids, i, keep, DemandEnded, target, old(runs), acts, runs, out);
        }
      }
      SweepAll(ids, ended, keep, ended, DemandEnded, mid, old(runs), acts, runs, out);
    }

    method ActivateJobs(before: set<JobId>, after: set<JobId>, track: bool)
      modifies this`runs, this`view
      ensures Model() == SchedulerSpec.ActivateJobs(old(Model()), before, after, track)
    {
      hide Lists, Done, Visited, Marked;
      var waiting := view.activationWaiting * after;
      ghost var table, kept, added := runs.jobs, waiting, Sampling(after - before, runs.jobs);
      var ids := Listing(after - before);
      MarkNone(ids, after - before, table, added, now);
      for i := 0 to |ids|
        invariant view == old(view) && runs == old(runs).(jobs := runs.jobs)
        invariant Done(ids, i, table, runs.jobs, Marked(table, added, now))
        invariant waiting == kept + if track then added * Visited(ids, i) else {}
      {
        MarkOneMore(ids, i, table, runs.jobs, added, now);
        VisitedOneMore(ids, i);
        var id := ids[i];
        if id in runs.jobs && runs.jobs[id].spec.timing != History {
          runs := runs.(jobs := runs.jobs[id := runs.jobs[id].MarkPending(now)]);
          if track {
            waiting := waiting + {id};
          }
        }
      }
      MarkAll(ids, table, runs.jobs, added, now);
      VisitedAll(ids, after - before);
      assert added * Visited(ids, |ids|) == added;
      view := view.(activationWaiting := waiting);
      if waiting == {} {
        view := view.(activationDeadline := None);
      } else if track && view.activationDeadline.None? {
        view := view.(activationDeadline := Some(now + ACTIVATION_REFRESH_TIMEOUT));
      }
    }

    method RefreshAllDemanded()
      modifies this`runs
      ensures Model() == SchedulerSpec.RefreshAllDemanded(old(Model()))
    {
      hide Lists, Done, DemandPlan.Demanded;
      var demanded := Demanded();
      ghost var table, target := runs.jobs, AllRetried(runs.jobs, Sampling(demanded, runs.jobs), now);
      var ids := Listing(runs.jobs.Keys);
      DoneNone(ids, table.Keys, table, target);
      for i := 0 to |ids|
        invariant runs == old(runs).(jobs := runs.jobs)
        invariant Done(ids, i, table, runs.jobs, target)
      {
        DoneOneMore(ids, i, table, runs.jobs, target);
        var id := ids[i];
        if id in demanded && runs.jobs[id].spec.timing != History {
          runs := runs.(jobs := runs.jobs[id := runs.jobs[id].MarkPending(now).(retryDue := None)]);
        }
      }
      DoneAll(ids, table, runs.jobs, target);
    }

    method RebuildFirstPaintBlockers(acts: seq<SchedulerAction>) returns (out: seq<SchedulerAction>)
      modifies this`paint, this`runs, this`feed
      ensures Step(Model(), out) == SchedulerSpec.RebuildFirstPaintBlockers(Step(old(Model()), acts))
    {
      hide SchedulerSpec.IssueFirstPaint, DemandPlan.Demanded;
      out := acts;
      if paint.firstPaintIssued {
        return;
      }
      var demanded := Demanded();
      paint := paint.(firstPaintWaiting :=
        set id | id in runs.jobs && id in demanded && runs.jobs[id].spec.startupPanel
                 && runs.jobs[id].spec.timing != History && !runs.jobs[id].hasSample);
      if paint.firstPaintWaiting == {} {
        out := IssueFirstPaint(acts, FirstPaintReady);
      }
    }

    // ----- replacing the job table

    method ReplaceJobs(acts: seq<SchedulerAction>, specs: seq<JobSpec>, reason: CancelReason)
      returns (out: seq<SchedulerAction>)
      modifies this`runs, this`paint, this`view
      ensures Step(Model(), out) == SchedulerSpec.ReplaceJobs(Step(old(Model()), acts), specs, reason)
    {
      hide SchedulerSpec.CancelAll, Resettled, ReplaceEach, InvalidateAll;
      out := CancelAll(acts, reason);
      ghost var x1 := Step(Model(), out);
      var display := if paint.nextDisplay.Some? then paint.nextDisplay.value else now + settings.displayInterval;
      var table, previous;
      table, previous, out := MatchSpecs(runs.jobs, out, specs, display, reason);
      out := InvalidateEach(InOrder(previous.Keys), out, reason);
      runs := runs.(jobs := table);
      ResettleWaiting();
    }

    static method InvalidateEach(ids: seq<JobId>, acts: seq<SchedulerAction>, reason: CancelReason)
      returns (out: seq<SchedulerAction>)
      ensures out == acts + InvalidateAll(ids, reason)
    {
      hide InvalidateAll;
      out := acts;
      InvalidateOneMore(ids, 0, reason);
      for i := 0 to |ids|
        invariant out == acts + InvalidateAll(ids[..i], reason)
      {
        InvalidateOneMore(ids, i, reason);
        out := out + [InvalidateJob(ids[i], reason, None)];
      }
      assert ids[..|ids|] == ids;
    }

    /** The loop that matches the new specifications against the jobs there were. */
    method MatchSpecs(jobs: JobTable, acts: seq<SchedulerAction>, specs: seq<JobSpec>, display: Time, reason: CancelReason)
      returns (table: JobTable, previous: JobTable, out: seq<SchedulerAction>)
      ensures Replacement(previous, table, out) == ReplaceEach(Replacement(jobs, map[], acts), specs, now, display, reason)
    {
      hide NewRuntime, SourceChanged, ClearedMetrics;
      previous, table, out := jobs, map[], acts;
      for i := 0 to |specs|
        invariant Replacement(previous, table, out)
               == ReplaceEach(Replacement(jobs, map[], acts), specs[..i], now, display, reason)
      {
        assert specs[..i + 1][..i] == specs[..i];
        var spec := specs[i];
        if spec.id in previous {
          var prior := previous[spec.id];
          previous := previous - {spec.id};
          var changed := prior.spec != spec && SourceChanged(prior.spec, spec);
          if prior.spec == spec {
            table := table[spec.id := prior];
          } else {
            table := table[spec.id := NewRuntime(spec, now, display).(hasSample := prior.hasSample && !changed)];
          }
          if changed {
            out := out + [InvalidateJob(spec.id, reason, ClearedMetrics(prior.spec, spec))];
          }
          SameSourceStays(prior.spec, spec);
        } else {
          table := table[spec.id := NewRuntime(spec, now, display)];
        }
      }
      assert specs[..|specs|] == specs;
    }

    /** The loop over the panel jobs that a first paint must wait for. */
    method AwaitBlockers()
      modifies this`runs, this`paint
      ensures var s0 := old(Model()); var blockers := FirstPaintBlockers(s0.runs.jobs, CurrentDemand(s0));
        Model() == MarkJobs(s0, blockers).(paint := s0.paint.(firstPaintWaiting := blockers))
    {
      hide Lists, Done, Visited, Marked, DemandPlan.Demanded;
      var demanded := Demanded();
      ghost var table, blockers := runs.jobs, FirstPaintBlockers(runs.jobs, demanded);
      var ids := Listing(runs.jobs.Keys);
      MarkNone(ids, table.Keys, table, blockers, now);
      paint := paint.(firstPaintWaiting := {});
      for i := 0 to |ids|
        invariant runs == old(runs).(jobs := runs.jobs)
        invariant Done(ids, i, table, runs.jobs, Marked(table, blockers, now))
        invariant paint == old(paint).(firstPaintWaiting := blockers * Visited(ids, i))
      {
        MarkOneMore(ids, i, table, runs.jobs, blockers, now);
        VisitedOneMore(ids, i);
        var id := ids[i];
        var rt := runs.jobs[id];
        if id in demanded && rt.spec.startupPanel && rt.spec.timing != History && !rt.hasSample {
          runs := runs.(jobs := runs.jobs[id := rt.MarkPending(now)]);
          paint := paint.(firstPaintWaiting := paint.firstPaintWaiting + {id});
        }
      }
      MarkAll(ids, table, runs.jobs, blockers, now);
      VisitedAll(ids, table.Keys);
      assert blockers * Visited(ids, |ids|) == blockers;
    }

    /** The waiting sets once the table has been replaced. */
    method ResettleWaiting()
      modifies this`runs, this`paint, this`view
      ensures Model() == Resettled(old(Model()))
    {
      hide Marked, DemandPlan.Demanded, FirstPaintBlockers;
      MarkedNone(runs.jobs, now);
      MarkedKeys(runs.jobs, now);
      if paint.firstPaintIssued {
        paint := paint.(firstPaintWaiting := {});
      } else {
        AwaitBlockers();
      }
      view := view.(activationWaiting := view.activationWaiting * runs.jobs.Keys);
    }

    // ----- events that change what is wanted

    method Reconfigure(acts: seq<SchedulerAction>, config: SchedulerConfig) returns (out: seq<SchedulerAction>)
      modifies this
      ensures Step(Model(), out) == SchedulerSpec.Reconfigure(Step(old(Model()), acts), config)
    {
      hide SchedulerSpec.ReplaceJobs, SchedulerSpec.RefreshDemand, SchedulerSpec.ReanchorFastJobs, MarkJobs;
      hide SchedulerSpec.IssuePublish, DiscoveryJobs;
      settings := settings.(configGeneration := config.generation, displayInterval := config.displayInterval,
                            demand := config.demand);
      paint := paint.(nextDisplay := Some(now + settings.displayInterval));
      out := ReplaceJobs(acts, config.jobs, ConfigReplaced);
      ReanchorFastJobs();
      out := RefreshDemand(out, false);
      MarkDiscovery();
      if paint.firstPaintIssued {
        out := IssuePublish(out, ConfigReload, None, 0, true, view.effectivePresented);
      }
    }

    method MarkDiscovery()
      modifies this`runs
      ensures Model() == MarkJobs(old(Model()), DiscoveryJobs(old(Model())))
    {
      hide Lists, Done, Marked, DemandPlan.Demanded;
      var demanded := Demanded();
      ghost var table, wanted := runs.jobs, DiscoveryJobs(Model());
      var ids := Listing(runs.jobs.Keys);
      MarkNone(ids, table.Keys, table, wanted, now);
      for i := 0 to |ids|
        invariant runs == old(runs).(jobs := runs.jobs)
        invariant Done(ids, i, table, runs.jobs, Marked(table, wanted, now))
      {
        MarkOneMore(ids, i, table, runs.jobs, wanted, now);
        if ids[i] in demanded && ids[i].kind == HARDWARE_DISCOVERY {
          runs := runs.(jobs := runs.jobs[ids[i] := runs.jobs[ids[i]].MarkPending(now)]);
        }
      }
      MarkAll(ids, table, runs.jobs, wanted, now);
    }

    method ChangeInventory(acts: seq<SchedulerAction>, update: InventoryUpdate) returns (out: seq<SchedulerAction>)
      modifies this
      ensures Step(Model(), out) == SchedulerSpec.ChangeInventory(Step(old(Model()), acts), update)
    {
      hide SchedulerSpec.ReplaceJobs, SchedulerSpec.RefreshDemand, SchedulerSpec.ActivateJobs;
      hide SchedulerSpec.RefreshAllDemanded, DemandPlan.Demanded;
      var resumes := update.resumeAcknowledgement == handshake.awaiting && handshake.awaiting.Some?;
      var before := Demanded();
      settings := settings.(inventoryGeneration := update.generation, demand := update.demand);
      out := ReplaceJobs(acts, update.jobs, SourceReplaced);
      if resumes {
        handshake := handshake.(awaiting := None);
      }
      ActivateJobs(before, Demanded(), view.effectivePresented);
      out := RefreshDemand(out, false);
      if resumes {
        RefreshAllDemanded();
      }
    }

    method ChangeDemand(acts: seq<SchedulerAction>, demand: DemandPlan) returns (out: seq<SchedulerAction>)
      modifies this
      ensures Step(Model(), out) == SchedulerSpec.ChangeDemand(Step(old(Model()), acts), demand)
    {
      hide SchedulerSpec.CancelDemandEnded, SchedulerSpec.RefreshDemand, SchedulerSpec.ActivateJobs;
      hide SchedulerSpec.RebuildFirstPaintBlockers, DemandPlan.Demanded;
      var before := Demanded();
      settings := settings.(demand := demand);
      var after := Demanded();
      out := CancelDemandEnded(acts, before, after);
      ActivateJobs(before, after, view.effectivePresented);
      out := RefreshDemand(out, false);
      out := RebuildFirstPaintBlockers(out);
    }

    method ChangePresentation(acts: seq<SchedulerAction>, presented: bool) returns (out: seq<SchedulerAction>)
      modifies this
      ensures Step(Model(), out) == SchedulerSpec.ChangePresentation(Step(old(Model()), acts), presented)
    {
      hide SchedulerSpec.ActivateJobs, SchedulerSpec.RefreshActivation, DemandPlan.Demanded;
      out := acts;
      var wasPresented := view.presented;
      view := view.(presented := presented);
      if presented {
        view := view.(deactivationDeadline := None);
        var wasEffective := view.effectivePresented;
        view := view.(effectivePresented := true);
        if !wasEffective {
          var before := settings.demand.Demanded(false, view.selectedPage);
          ActivateJobs(before, Demanded(), true);
        }
        if !wasPresented {
          out := RefreshActivation(out);
        }
      } else if wasPresented && view.effectivePresented {
        view := view.(deactivationDeadline := Some(now + DEACTIVATION_GRACE));
      }
    }

    method RefreshActivation(acts: seq<SchedulerAction>) returns (out: seq<SchedulerAction>)
      modifies this
      ensures Step(Model(), out) == SchedulerSpec.RefreshActivation(Step(old(Model()), acts))
    {
      hide SchedulerSpec.IssuePublish, MarkJobs, Stale;
      out := acts;
      MarkStale();
      if view.activationWaiting == {} {
        out := IssuePublish(out, TooltipActivated, None, 0, false, true);
      } else if view.activationDeadline.None? {
        view := view.(activationDeadline := Some(now + ACTIVATION_REFRESH_TIMEOUT));
      }
    }

    method MarkStale()
      modifies this`runs, this`view
      ensures var s0 := old(Model()); var stale := Stale(s0.runs.jobs);
        Model() == MarkJobs(s0, stale).(view := s0.view.(activationWaiting := s0.view.activationWaiting + stale))
    {
      hide Lists, Done, Visited, Marked, Stale, WantsTooltipRefresh;
      ghost var table, stale := runs.jobs, Stale(runs.jobs);
      var waiting := view.activationWaiting;
      var ids := Listing(runs.jobs.Keys);
      StaleIs(table);
      MarkNone(ids, table.Keys, table, stale, now);
      for i := 0 to |ids|
        invariant view == old(view) && runs == old(runs).(jobs := runs.jobs)
        invariant Done(ids, i, table, runs.jobs, Marked(table, stale, now))
        invariant waiting == old(view.activationWaiting) + stale * Visited(ids, i)
      {
        MarkOneMore(ids, i, table, runs.jobs, stale, now);
        VisitedOneMore(ids, i);
        var id := ids[i];
        if WantsTooltipRefresh(runs.jobs[id].spec) {
          runs := runs.(jobs := runs.jobs[id := runs.jobs[id].MarkPending(now)]);
          waiting := waiting + {id};
        }
      }
      MarkAll(ids, table, runs.jobs, stale, now);
      VisitedAll(ids, table.Keys);
      assert stale * Visited(ids, |ids|) == stale;
      view := view.(activationWaiting := waiting);
    }

    method ChangePage(acts: seq<SchedulerAction>, page: PageId) returns (out: seq<SchedulerAction>)
      modifies this
      ensures Step(Model(), out) == SchedulerSpec.ChangePage(Step(old(Model()), acts), page)
    {
      hide SchedulerSpec.CancelDemandEnded, SchedulerSpec.ActivateJobs, SchedulerSpec.IssuePublish, DemandPlan.Demanded;
      out := acts;
      if page == view.selectedPage {
        return;
      }
      var before := Demanded();
      view := view.(selectedPage := page);
      if view.effectivePresented {
        var after := Demanded();
        out := CancelDemandEnded(out, before, after);
        ActivateJobs(before, after, true);
        if view.presented && view.activationWaiting == {} {
          out := IssuePublish(out, PageChanged, None, 0, false, true);
        }
      }
    }

    // ----- time

    method ProcessTime(acts: seq<SchedulerAction>) returns (out: seq<SchedulerAction>)
      modifies this
      ensures Step(Model(), out) == SchedulerSpec.ProcessTime(Step(old(Model()), acts))
    {
      hide ExpireTimers, TimeJobs;
      out := ProcessSurfaceTimers(acts);
      ProcessJobTimers();
    }

    method ProcessSurfaceTimers(acts: seq<SchedulerAction>) returns (out: seq<SchedulerAction>)
      modifies this
      ensures Step(Model(), out) == ExpireTimers(Step(old(Model()), acts))
    {
      hide ExpireDeactivation, ExpireFirstPaint, ExpireActivation, DisplayTick;
      out := ProcessDeactivation(acts);
      out := ProcessFirstPaint(out);
      out := ProcessActivation(out);
      out := ProcessDisplay(out);
    }

    method ProcessDeactivation(acts: seq<SchedulerAction>) returns (out: seq<SchedulerAction>)
      modifies this
      ensures Step(Model(), out) == ExpireDeactivation(Step(old(Model()), acts))
    {
      hide SchedulerSpec.RefreshDemand;
      out := acts;
      if view.deactivationDeadline.Some? && view.deactivationDeadline.value <= now {
        view := view.(deactivationDeadline := None);
        if !view.presented {
          view := view.(effectivePresented := false);
          out := RefreshDemand(out, true);
        }
      }
    }

    method ProcessFirstPaint(acts: seq<SchedulerAction>) returns (out: seq<SchedulerAction>)
      modifies this
      ensures Step(Model(), out) == ExpireFirstPaint(Step(old(Model()), acts))
    {
      hide SchedulerSpec.IssueFirstPaint;
      out := acts;
      if paint.firstPaintDeadline.Some? && paint.firstPaintDeadline.value <= now && !paint.firstPaintIssued {
        out := IssueFirstPaint(out, FirstPaintTimeout);
      }
    }

    method ProcessActivation(acts: seq<SchedulerAction>) returns (out: seq<SchedulerAction>)
      modifies this
      ensures Step(Model(), out) == ExpireActivation(Step(old(Model()), acts))
    {
      hide SchedulerSpec.IssuePublish;
      out := acts;
      if view.activationDeadline.Some? && view.activationDeadline.value <= now {
        view := view.(activationDeadline := None, activationWaiting := {});
        out := IssuePublish(out, TooltipRefresh, None, 0, false, true);
      }
    }

    method ProcessDisplay(acts: seq<SchedulerAction>) returns (out: seq<SchedulerAction>)
      modifies this
      ensures Step(Model(), out) == DisplayTick(Step(old(Model()), acts))
    {
      hide AdvancePast, SkippedIntervals, Publish;
      out := acts;
      if paint.firstPaintIssued && paint.nextDisplay.Some? && paint.nextDisplay.value <= now {
        var deadline := paint.nextDisplay.value;
        var skipped := SkippedIntervals(deadline, settings.displayInterval, now);
        out := IssuePublish(out, DisplayDeadline, Some(deadline), skipped, true, view.effectivePresented);
        if paint.nextDisplay.Some? {
          paint := paint.(nextDisplay := Some(AdvancePast(paint.nextDisplay.value, settings.displayInterval, now)));
        }
      }
    }

    method ProcessJobTimers()
      modifies this`runs
      ensures Model() == TimeJobs(old(Model()))
    {
      hide Lists, Done, TimedRuntime, DemandPlan.Demanded, TimedJobs;
      var demanded := Demanded();
      var samples := map id | id in runs.jobs :: runs.jobs[id].hasSample;
      ghost var table, target := runs.jobs, TimedJobs(runs.jobs, demanded, now);
      var ids := Listing(runs.jobs.Keys);
      TimedKeys(table, demanded, now);
      DoneNone(ids, table.Keys, table, target);
      for i := 0 to |ids|
        invariant runs == old(runs).(jobs := runs.jobs)
        invariant Done(ids, i, table, runs.jobs, target)
      {
        DoneOneMore(ids, i, table, runs.jobs, target);
        TimedAt(table, demanded, now, ids[i]);
        var id := ids[i];
        if id in demanded {
          var source := runs.jobs[id].spec.historySource;
          var ready := source.None? || (source.value in samples && samples[source.value]);
          var rt := ProcessJobTimer(runs.jobs[id], ready, now);
          runs := runs.(jobs := runs.jobs[id := rt]);
        }
      }
      DoneAll(ids, table, runs.jobs, target);
    }

    static method ProcessJobTimer(rt0: JobRuntime, ready: bool, now: Time) returns (rt: JobRuntime)
      ensures rt == TimedRuntime(rt0, ready, now)
    {
      hide LatestDueAtOrBefore, AdvancePast;
      rt := rt0;
      if rt.retryDue.Some? && rt.retryDue.value <= now {
        rt := rt.(retryDue := None).MarkPending(now);
      }
      if rt.nominalDue.Some? && rt.nominalDue.value <= now {
        var due := rt.nominalDue.value;
        if rt.spec.timing == History {
          if ready {
            rt := rt.MarkHistoryPending(LatestDueAtOrBefore(due, rt.spec.freshness, now));
          }
        } else {
          rt := rt.MarkPending(now);
        }
        rt := rt.(nominalDue := Some(AdvancePast(due, rt.spec.freshness, now)));
      }
    }

    // ----- job results

    function HoldsCurrent(ticket: JobTicket): bool
      reads this
      ensures HoldsCurrent(ticket) == IsCurrentTicket(Model(), ticket)
    {
      && lifecycle == Running
      && ticket.configGeneration == settings.configGeneration
      && ticket.inventoryGeneration == settings.inventoryGeneration
      && ticket.job in runs.jobs && runs.jobs[ticket.job].inFlight == Some(ticket)
    }

    function HoldsCancelling(ticket: JobTicket): bool
      reads this
      ensures HoldsCancelling(ticket) == Cancelling(Model().runs, ticket)
    {
      ticket.runId in runs.cancelling && runs.cancelling[ticket.runId] == ticket
    }

    method FinishJob(acts: seq<SchedulerAction>, ticket: JobTicket, completion: CompletionKind, ready: bool)
      returns (done: bool, out: seq<SchedulerAction>)
      modifies this
      ensures done == Finishes(old(Model()), ticket)
      ensures done ==> Step(Model(), out) == SchedulerSpec.FinishJob(Step(old(Model()), acts), ticket, completion, ready)
      ensures !done ==> Step(Model(), out) == Step(old(Model()), acts)
    {
      hide LandRun, CompletionActions, SchedulerSpec.IssuePublish, SchedulerSpec.IssueFirstPaint;
      out := acts;
      if ticket.configGeneration != settings.configGeneration || ticket.inventoryGeneration != settings.inventoryGeneration {
        return false, out;
      }
      if ticket.job !in runs.jobs || runs.jobs[ticket.job].inFlight != Some(ticket) {
        return false, out;
      }
      done := true;
      out := LandTicket(out, ticket, completion, ready);
      if !paint.firstPaintIssued && paint.firstPaintWaiting == {} {
        out := IssueFirstPaint(out, FirstPaintReady);
      }
      if view.activationDeadline.Some? && view.activationWaiting == {} {
        view := view.(activationDeadline := None);
        out := IssuePublish(out, TooltipRefresh, None, 0, false, true);
      }
    }

    /** The completion's effect on its runtime, and the backoff it announces. */
    static method CompleteRuntime(rt0: JobRuntime, job: JobId, completion: CompletionKind, now: Time)
      returns (rt: JobRuntime, backoff: seq<SchedulerAction>)
      ensures rt == Completed(rt0, completion, now)
      ensures backoff == if completion == Failed && rt.spec.timing != History
                         then [ApplyBackoff(job, rt.failureCount, now + RetryDelay(rt.failureCount, rt.spec.freshness))] else []
    {
      hide RetryDelay;
      rt := rt0.(inFlight := None);
      backoff := [];
      match completion {
        case Captured =>
          rt := rt.(hasSample := true, failureCount := 0, needsBaseline := false, retryDue := None);
        case Baseline =>
          rt := rt.(failureCount := 0, needsBaseline := true,
                    retryDue := if rt.spec.timing != History then Some(now + RETRY_BASE) else None);
        case ConfirmedAbsent =>
          rt := rt.(hasSample := false, failureCount := 0, needsBaseline := false, retryDue := None);
        case Failed =>
          rt := rt.(failureCount := FailedOnce(rt.failureCount));
          if rt.spec.timing != History {
            var retryAt := now + RetryDelay(rt.failureCount, rt.spec.freshness);
            rt := rt.(retryDue := Some(retryAt));
            backoff := [ApplyBackoff(job, rt.failureCount, retryAt)];
          }
      }
    }

    method LandTicket(acts: seq<SchedulerAction>, ticket: JobTicket, completion: CompletionKind, ready: bool)
      returns (out: seq<SchedulerAction>)
      requires ticket.job in runs.jobs
      modifies this
      ensures Step(Model(), out)
           == Step(LandRun(old(Model()), ticket, completion), acts + CompletionActions(old(Model()), ticket, completion, ready))
    {
      hide RetryDelay, Orphaned, InvalidateAll, Dependents, Completed;
      var job := ticket.job;
      CompletedSpec(runs.jobs[job], completion, now);
      runs := runs.(inFlightOwners := runs.inFlightOwners - {job.owner});
      paint := paint.(firstPaintWaiting := paint.firstPaintWaiting - {job});
      view := view.(activationWaiting := view.activationWaiting - {job});
      var rt, backoff := CompleteRuntime(runs.jobs[job], job, completion, now);
      var notify := if ready && feed.notificationsArmed && rt.spec.timing != History then [EvaluateNotifications(ticket)] else [];
      var orphans := RecordRuntime(job, rt, completion);
      out := acts + (backoff + notify + orphans);
    }

    /** Puts the completed runtime back; a confirmed absence also takes its dependents' samples and marks. */
    method RecordRuntime(job: JobId, rt: JobRuntime, completion: CompletionKind) returns (orphans: seq<SchedulerAction>)
      requires job in runs.jobs && rt.spec == runs.jobs[job].spec
      modifies this`runs
      ensures var landed := old(runs.jobs)[job := rt];
        runs == old(runs).(jobs := if completion == ConfirmedAbsent then Orphaned(landed, Dependents(landed, job)) else landed)
      ensures orphans == if completion == ConfirmedAbsent
                         then InvalidateAll(InOrder(Dependents(old(runs.jobs), job)), SourceReplaced) else []
    {
      hide Orphaned, InvalidateAll, Dependents;
      SameDependents(runs.jobs, job, rt, job);
      runs := runs.(jobs := runs.jobs[job := rt]);
      orphans := [];
      if completion == ConfirmedAbsent {
        orphans := OrphanDependents(orphans, job);
      }
    }

    /** Drops the samples and marks of the histories that depend on a source confirmed absent. */
    method OrphanDependents(acts: seq<SchedulerAction>, source: JobId) returns (out: seq<SchedulerAction>)
      modifies this`runs
      ensures runs == old(runs).(jobs := Orphaned(old(runs.jobs), Dependents(old(runs.jobs), source)))
      ensures out == acts + InvalidateAll(InOrder(Dependents(old(runs.jobs), source)), SourceReplaced)
    {
      hide Lists, Done, InvalidateAll, Orphaned;
      ghost var table, lost := runs.jobs, Dependents(runs.jobs, source);
      ghost var target := Orphaned(table, lost);
      var ids := Listing(runs.jobs.Keys);
      var histories := [];
      OrphanedAt(table, lost);
      DoneNone(ids, table.Keys, table, target);
      for i := 0 to |ids|
        invariant runs == old(runs).(jobs := runs.jobs)
        invariant Done(ids, i, table, runs.jobs, target)
        invariant histories == Only(ids[..i], lost)
      {
        DoneOneMore(ids, i, table, runs.jobs, target);
        OnlyOneMore(ids, i, lost);
        var id := ids[i];
        if runs.jobs[id].spec.historySource == Some(source) {
          runs := runs.(jobs := runs.jobs[id := runs.jobs[id].(hasSample := false, pendingSince := None,
                                                               pendingHistoryDeadline := None)]);
          histories := histories + [id];
        }
      }
      DoneAll(ids, table, runs.jobs, target);
      OnlyOfAll(ids, table.Keys, lost);
      out := InvalidateEach(histories, acts, SourceReplaced);
    }

    method FinishCancellation(ticket: JobTicket) returns (done: bool)
      modifies this`runs
      ensures done == Cancelling(old(Model()).runs, ticket)
      ensures Model() == if done then SchedulerSpec.FinishCancellation(old(Model()), ticket) else old(Model())
    {
      if !HoldsCancelling(ticket) {
        return false;
      }
      var owner := ticket.job.owner;
      runs := runs.(cancelling := runs.cancelling - {ticket.runId});
      if owner in runs.inFlightOwners && runs.inFlightOwners[owner] == ticket.runId {
        runs := runs.(inFlightOwners := runs.inFlightOwners - {owner});
      }
      return true;
    }

    method Trigger(job: JobId)
      modifies this`runs
      ensures Model() == SchedulerSpec.Trigger(old(Model()), job)
    {
      hide DemandPlan.Demanded;
      var which := Sampling({job} * Demanded(), runs.jobs);
      if job in Demanded() && job in runs.jobs && runs.jobs[job].spec.timing != History {
        assert which == {job};
        assert Marked(runs.jobs, which, now) == runs.jobs[job := runs.jobs[job].MarkPending(now)];
        runs := runs.(jobs := runs.jobs[job := runs.jobs[job].MarkPending(now)]);
      } else {
        assert which == {};
        MarkedNone(runs.jobs, now);
      }
    }

    // ----- lifecycle

    method Suspend(acts: seq<SchedulerAction>) returns (out: seq<SchedulerAction>)
      modifies this
      ensures Step(Model(), out) == SuspendNow(Step(old(Model()), acts))
    {
      hide SchedulerSpec.CancelAll;
      out := acts;
      if lifecycle != Running {
        return;
      }
      out := CancelAll(out, ForSuspend);
      lifecycle := Suspended;
    }

    method Stop(acts: seq<SchedulerAction>, reason: CancelReason, component: Option<string>)
      returns (out: seq<SchedulerAction>)
      modifies this
      ensures Step(Model(), out) == StopNow(Step(old(Model()), acts), reason, component)
    {
      hide SchedulerSpec.CancelAll;
      out := CancelAll(acts, reason);
      lifecycle := Stopped;
      out := out + [Terminate(component)];
    }

    method Resume(acts: seq<SchedulerAction>) returns (out: seq<SchedulerAction>)
      modifies this
      ensures Step(Model(), out) == ResumeNow(Step(old(Model()), acts))
    {
      hide SchedulerSpec.ReanchorFastJobs, BaselineResets, ResumedJobs, AllCaughtUp, DemandPlan.Demanded;
      out := acts;
      if lifecycle != Suspended {
        return;
      }
      lifecycle := Running;
      paint := paint.(nextDisplay := Some(now + settings.displayInterval));
      ReanchorFastJobs();
      assert Model() == Awakened(old(Model()));
      CatchUpJobs();
      var reconciliation := handshake.nextReconciliationId;
      handshake := Handshake(Some(reconciliation), reconciliation + 1);
      out := out + [RescanHardware(reconciliation)];
      out := RestartJobs(out, Awakened(old(Model())).runs.jobs);
    }

    method CatchUpJobs()
      modifies this`runs
      ensures Model() == WithJobs(old(Model()), AllCaughtUp(old(runs.jobs), now))
    {
      hide Lists, Done, AdvancePast;
      ghost var table, target := runs.jobs, AllCaughtUp(runs.jobs, now);
      var ids := Listing(runs.jobs.Keys);
      DoneNone(ids, table.Keys, table, target);
      for i := 0 to |ids|
        invariant runs == old(runs).(jobs := runs.jobs)
        invariant Done(ids, i, table, runs.jobs, target)
      {
        DoneOneMore(ids, i, table, runs.jobs, target);
        var rt := runs.jobs[ids[i]];
        if (rt.spec.timing == Periodic || rt.spec.timing == History) && rt.nominalDue.Some? && rt.nominalDue.value <= now {
          rt := rt.(nominalDue := Some(AdvancePast(rt.nominalDue.value, rt.spec.freshness, now)));
          runs := runs.(jobs := runs.jobs[ids[i] := rt]);
        }
      }
      DoneAll(ids, table, runs.jobs, target);
    }

    method RestartJobs(acts: seq<SchedulerAction>, ghost jobs0: JobTable) returns (out: seq<SchedulerAction>)
      requires runs.jobs == AllCaughtUp(jobs0, now)
      modifies this`runs
      ensures Model() == WithJobs(old(Model()), ResumedJobs(jobs0, CurrentDemand(old(Model())), now))
      ensures out == acts + BaselineResets(InOrder(jobs0.Keys), jobs0)
    {
      hide Lists, Done, ResumedJobs, ResumedDeadline, DemandPlan.Demanded, BaselineResets, AllCaughtUp, Restarted;
      var demanded := Demanded();
      ghost var table, target := runs.jobs, ResumedJobs(jobs0, demanded, now);
      RestartKeys(jobs0, demanded, now);
      var ids := Listing(runs.jobs.Keys);
      out := acts;
      DoneNone(ids, table.Keys, table, target);
      ResetsOneMore(ids, 0, jobs0);
      for i := 0 to |ids|
        invariant runs == old(runs).(jobs := runs.jobs)
        invariant Done(ids, i, table, runs.jobs, target)
        invariant out == acts + BaselineResets(ids[..i], jobs0)
      {
        DoneOneMore(ids, i, table, runs.jobs, target);
        ResetsOneMore(ids, i, jobs0);
        RestartAt(jobs0, demanded, now, ids[i]);
        var id := ids[i];
        if runs.jobs[id].spec.counter {
          out := out + [ResetCounterBaseline(id)];
        }
        runs := runs.(jobs := runs.jobs[id := Restarted(runs.jobs[id], id in demanded, now)]);
      }
      ResetsOfAll(ids, jobs0);
      DoneAll(ids, table, runs.jobs, target);
    }

    method StartUp(acts: seq<SchedulerAction>, config: SchedulerConfig, inventoryGeneration: nat)
      returns (out: seq<SchedulerAction>)
      modifies this
      ensures Step(Model(), out) == SchedulerSpec.StartUp(Step(old(Model()), acts), config, inventoryGeneration)
    {
      hide SchedulerSpec.IssueFirstPaint, TableOf, MarkJobs, Sampling, StartupPanel, DemandPlan.Demanded;
      lifecycle := Running;
      settings := Settings(config.generation, inventoryGeneration, config.displayInterval, config.demand);
      var firstDisplay := now + settings.displayInterval;
      paint := paint.(nextDisplay := Some(firstDisplay), firstPaintDeadline := Some(now + FIRST_PAINT_TIMEOUT));
      var table := CollectJobs(config.jobs, now, firstDisplay);
      runs := runs.(jobs := table);
      AwaitStartupPanel();
      out := acts;
      if paint.firstPaintWaiting == {} {
        out := IssueFirstPaint(out, FirstPaintReady);
      }
    }

    static method CollectJobs(specs: seq<JobSpec>, anchor: Time, display: Time) returns (table: JobTable)
      ensures table == TableOf(specs, anchor, display)
    {
      hide NewRuntime;
      table := map[];
      for i := 0 to |specs|
        invariant table == TableOf(specs[..i], anchor, display)
      {
        assert specs[..i + 1][..i] == specs[..i];
        table := table[specs[i].id := NewRuntime(specs[i], anchor, display)];
      }
      assert specs[..|specs|] == specs;
    }

    /** Marks the demanded jobs, and makes the first paint wait for those that feed the panel. */
    method AwaitStartupPanel()
      modifies this`runs, this`paint
      ensures var s0 := old(Model()); var wanted := Sampling(CurrentDemand(s0), s0.runs.jobs);
        Model() == MarkJobs(s0, wanted).(paint := s0.paint.(firstPaintWaiting :=
                     s0.paint.firstPaintWaiting + StartupPanel(wanted, s0.runs.jobs)))
    {
      hide Lists, Done, Visited, Marked, DemandPlan.Demanded;
      var demanded := Demanded();
      ghost var table, wanted := runs.jobs, Sampling(demanded, runs.jobs);
      ghost var panel := StartupPanel(wanted, table);
      var waiting := paint.firstPaintWaiting;
      var ids := Listing(runs.jobs.Keys);
      MarkNone(ids, table.Keys, table, wanted, now);
      for i := 0 to |ids|
        invariant paint == old(paint) && runs == old(runs).(jobs := runs.jobs)
        invariant Done(ids, i, table, runs.jobs, Marked(table, wanted, now))
        invariant waiting == old(paint.firstPaintWaiting) + panel * Visited(ids, i)
      {
        MarkOneMore(ids, i, table, runs.jobs, wanted, now);
        VisitedOneMore(ids, i);
        var id := ids[i];
        var spec := runs.jobs[id].spec;
        if id in demanded {
          if spec.timing != History {
            runs := runs.(jobs := runs.jobs[id := runs.jobs[id].MarkPending(now)]);
          }
          if spec.startupPanel && spec.timing != History {
            waiting := waiting + {id};
          }
        }
      }
      MarkAll(ids, table, runs.jobs, wanted, now);
      VisitedAll(ids, table.Keys);
      assert panel * Visited(ids, |ids|) == panel;
      paint := paint.(firstPaintWaiting := waiting);
    }

    // ----- dispatch and the next wake-up

    method Dispatch(acts: seq<SchedulerAction>) returns (out: seq<SchedulerAction>)
      modifies this`runs
      ensures Step(Model(), out) == SchedulerSpec.Dispatch(Step(old(Model()), acts))
    {
      hide Startable, StartEach, DemandPlan.Demanded;
      out := acts;
      if lifecycle != Running || handshake.awaiting.Some? {
        return;
      }
      var queue := CandidatesInOrder(Candidates(Model()));
      out := StartQueue(out, queue);
    }

    method StartQueue(acts: seq<SchedulerAction>, queue: seq<Candidate>) returns (out: seq<SchedulerAction>)
      requires Listed(runs.jobs, queue)
      modifies this`runs
      ensures Step(Model(), out) == StartEach(Step(old(Model()), acts), queue)
    {
      hide AmdJob.Metrics, Launch;
      ghost var x := Step(Model(), acts);
      out := acts;
      for i := 0 to |queue|
        invariant Listed(old(Model()).runs.jobs, queue[..i])
        invariant Step(Model(), out) == StartEach(x, queue[..i])
      {
        ListedOneMore(old(runs.jobs), queue, i);
        assert queue[..i + 1][..i] == queue[..i];
        assert queue[i].id in runs.jobs;
        out := StartOne(out, queue[i].id);
      }
      assert queue[..|queue|] == queue;
    }

    method StartOne(acts: seq<SchedulerAction>, id: JobId) returns (out: seq<SchedulerAction>)
      requires id in runs.jobs
      modifies this`runs
      ensures Step(Model(), out) == SchedulerSpec.StartOne(Step(old(Model()), acts), id)
    {
      hide AmdJob.Metrics;
      out := acts;
      if id.owner in runs.inFlightOwners {
        return;
      }
      var rt := runs.jobs[id];
      var ticket := JobTicket(
        if rt.spec.amd.Some? then rt.spec.amd.value.Metrics(view.presented) else {},
        runs.nextRunId, id, settings.configGeneration, settings.inventoryGeneration, rt.pendingHistoryDeadline);
      runs := runs.(nextRunId := runs.nextRunId + 1);
      runs := runs.(jobs := runs.jobs[id := rt.(pendingHistoryDeadline := None, pendingSince := None, inFlight := Some(ticket))],
                    inFlightOwners := runs.inFlightOwners[id.owner := ticket.runId]);
      out := out + [StartJob(ticket)];
    }

    method NextWake() returns (wake: Option<Time>)
      ensures wake == SchedulerSpec.NextWake(Model())
    {
      hide Lists, EarliestJob, DemandPlan.Demanded, Earlier, SurfaceWake;
      if lifecycle != Running || handshake.awaiting.Some? {
        return None;
      }
      var demanded := Demanded();
      var ids := Listing(runs.jobs.Keys);
      wake := None;
      EarliestOneMore(ids, 0, demanded, runs.jobs);
      for i := 0 to |ids|
        invariant wake == EarliestJob(Only(ids[..i], demanded * runs.jobs.Keys), runs.jobs)
      {
        EarliestOneMore(ids, i, demanded, runs.jobs);
        if ids[i] in demanded {
          var rt := runs.jobs[ids[i]];
          wake := Earlier(wake, Earlier(rt.retryDue, rt.nominalDue));
        }
      }
      OnlyOfAll(ids, runs.jobs.Keys, demanded * runs.jobs.Keys);
      assert demanded * runs.jobs.Keys == runs.jobs.Keys * demanded;
      wake := Earlier(wake, SurfaceWake(Model()));
    }

    // ----- one event

    method HandleEvent(e: SchedulerEvent) returns (disposition: EventDisposition, actions: seq<SchedulerAction>)
      requires Valid()
      modifies this
      ensures Outcome(Model(), disposition, actions) == SchedulerSpec.Handle(old(Model()), e)
      ensures Valid() && RunsFollowActions(old(Model()), e, Outcome(Model(), disposition, actions))
    {
      hide IsStale, SortActions, Apply, Settle, Inv, RunsFollowActions;
      HandleKeepsInvariant(Model(), e);
      if lifecycle != Unstarted && e.at < now {
        return RejectedTimeRegression, [];
      }
      if lifecycle == Stopped {
        return RejectedLifecycle, [];
      }
      if lifecycle == Unstarted && !e.Startup? {
        return RejectedLifecycle, [];
      }
      if lifecycle != Unstarted && e.Startup? {
        return RejectedLifecycle, [];
      }
      var stale := CheckStale(e);
      if stale {
        return RejectedStale, [];
      }
      now := e.at;
      disposition, actions := ApplyEvent(e);
      actions := SettleEvent(actions, disposition);
      actions := SortActions(actions);
    }

    method CheckStale(e: SchedulerEvent) returns (stale: bool)
      ensures stale == IsStale(Model(), e)
    {
      stale := match e
        case ConfigChanged(_, config) => config.generation <= settings.configGeneration
        case InventoryChanged(_, update) => update.generation <= settings.inventoryGeneration
        case JobFinished(_, ticket, _, _) => !HoldsCurrent(ticket) && !HoldsCancelling(ticket)
        case JobCancelled(_, ticket) => !HoldsCancelling(ticket)
        case PanelPublished(_, publication) => publication !in feed.panelPublications
        case _ => false;
    }

    method SettleEvent(acts: seq<SchedulerAction>, disposition: EventDisposition) returns (out: seq<SchedulerAction>)
      modifies this`runs
      ensures Step(Model(), out) == Settle(Step(old(Model()), acts), disposition)
    {
      hide SchedulerSpec.Dispatch, SchedulerSpec.NextWake;
      out := acts;
      if disposition == Accepted && lifecycle == Running {
        out := Dispatch(out);
        var wake := NextWake();
        if wake.Some? {
          out := out + [ScheduleDeadline(wake.value)];
        }
      }
    }

    method ProcessWhenRunning() returns (out: seq<SchedulerAction>)
      modifies this
      ensures Step(Model(), out) == TimeFirst(old(Model()))
    {
      hide SchedulerSpec.ProcessTime;
      out := [];
      if lifecycle == Running {
        out := ProcessTime(out);
      }
    }

    method Complete(ticket: JobTicket, completion: CompletionKind, ready: bool)
      returns (disposition: EventDisposition, out: seq<SchedulerAction>)
      modifies this
      ensures (Step(Model(), out), disposition) == ApplyCompletion(old(Model()), ticket, completion, ready)
    {
      hide TimeFirst, SchedulerSpec.FinishJob, SchedulerSpec.FinishCancellation;
      if HoldsCancelling(ticket) {
        out := ProcessWhenRunning();
        var done := FinishCancellation(ticket);
        disposition := Accepted;
      } else {
        out := ProcessWhenRunning();
        var done;
        done, out := FinishJob(out, ticket, completion, ready);
        disposition := if done then Accepted else RejectedStale;
      }
    }

    method AcknowledgeCancelled(ticket: JobTicket) returns (disposition: EventDisposition, out: seq<SchedulerAction>)
      modifies this
      ensures (Step(Model(), out), disposition) == ApplyCancelled(old(Model()), ticket)
    {
      hide TimeFirst, SchedulerSpec.FinishCancellation;
      out := ProcessWhenRunning();
      var done := FinishCancellation(ticket);
      disposition := if done then Accepted else RejectedStale;
    }

    method ApplyEvent(e: SchedulerEvent) returns (disposition: EventDisposition, out: seq<SchedulerAction>)
      modifies this
      ensures (Step(Model(), out), disposition) == Apply(old(Model()), e)
    {
      hide SchedulerSpec.StartUp, SchedulerSpec.Reconfigure, SchedulerSpec.ChangeInventory, SchedulerSpec.ChangeDemand;
      hide SchedulerSpec.ChangePresentation, SchedulerSpec.RefreshActivation, SchedulerSpec.ChangePage;
      hide SchedulerSpec.IssuePublish, SchedulerSpec.Trigger, TimeFirst, ApplyCompletion, ApplyCancelled;
      hide SuspendNow, ResumeNow, StopNow, Finishes, Cancelling;
      disposition, out := Accepted, [];
      match e {
        case Startup(_, config, inventory) => out := StartUp(out, config, inventory);
        case TimeAdvanced(_) => out := ProcessWhenRunning();
        case ConfigChanged(_, config) => out := Reconfigure(out, config);
        case InventoryChanged(_, update) => out := ChangeInventory(out, update);
        case DemandChanged(_, demand) => out := ChangeDemand(out, demand);
        case TooltipPresented(_, presented) => out := ChangePresentation(out, presented);
        case TooltipReactivated(_) =>
          if view.presented {
            out := RefreshActivation(out);
          }
        case SelectedPageChanged(_, page) => out := ChangePage(out, page);
        case DisplayRefreshRequested(_) => out := IssuePublish(out, ConfigReload, None, 0, true, view.effectivePresented);
        case TooltipRefreshRequested(_) => out := IssuePublish(out, TooltipRefresh, None, 0, false, true);
        case JobFinished(_, ticket, completion, ready) => disposition, out := Complete(ticket, completion, ready);
        case JobCancelled(_, ticket) => disposition, out := AcknowledgeCancelled(ticket);
        case RefreshTriggered(_, job) =>
          out := ProcessWhenRunning();
          Trigger(job);
        case PanelPublished(_, publication) =>
          feed := feed.(panelPublications := feed.panelPublications - {publication}, notificationsArmed := true);
        case Suspend(_) => out := Suspend(out);
        case Resume(_) => out := Resume(out);
        case Shutdown(_) => out := Stop(out, ForShutdown, None);
        case CriticalFailure(_, component) => out := Stop(out, ForCriticalFailure, Some(component));
      }
    }
  }
}
