/** What every reachable scheduler state satisfies: runs are unique, each owner has at most one,
    and an owner stays occupied from a run's start until that run's own result or acknowledgement. */
module SchedulerSafety {
  import opened Wrappers
  import opened SchedulerPolicy
  import opened SchedulerModel
  import opened SchedulerSpec

  /** The run `t` is in flight or waiting for its cancellation to be acknowledged. */
  ghost predicate Outstanding(r: Runs, t: JobTicket) {
    Flying(r, t) || Cancelling(r, t)
  }

  /** Tables are filed under their own identities, and no run is in both. */
  ghost predicate Filed(r: Runs) {
    && (forall id :: id in r.jobs ==>
          && r.jobs[id].spec.id == id
          && (r.jobs[id].inFlight.Some? ==> r.jobs[id].inFlight.value.job == id))
    && (forall k :: k in r.cancelling ==> r.cancelling[k].runId == k)
    && (forall t :: Flying(r, t) ==> t.runId !in r.cancelling)
  }

  ghost predicate Registered(r: Runs, t: JobTicket) {
    && t.job.owner in r.inFlightOwners && r.inFlightOwners[t.job.owner] == t.runId
    && t.runId < r.nextRunId
  }

  ghost predicate Held(r: Runs, o: OwnerId)
    requires o in r.inFlightOwners
  {
    exists t :: Outstanding(r, t) && t.job.owner == o && t.runId == r.inFlightOwners[o]
  }

  /** The owner table is exactly the set of outstanding runs, one per owner, with distinct run ids. */
  ghost predicate Occupancy(r: Runs) {
    && Filed(r)
    && (forall t :: Outstanding(r, t) ==> Registered(r, t))
    && (forall o :: o in r.inFlightOwners ==> Held(r, o))
    && (forall t, u :: Outstanding(r, t) && Outstanding(r, u) && t.runId == u.runId ==> t == u)
  }

  ghost predicate Grounded(r: Runs) {
    forall t :: !Flying(r, t)
  }

  // ----- steps that start nothing and release nothing

  /** Same keys, specs and runs; only bookkeeping differs. */
  ghost predicate Keeps(a: JobTable, b: JobTable) {
    && a.Keys == b.Keys
    && forall id :: id in a ==> a[id].spec == b[id].spec && a[id].inFlight == b[id].inFlight
  }

  /** Runs may move from in flight to cancelling, but none appears and none is released. */
  ghost predicate Steady(a: Runs, b: Runs) {
    && a.inFlightOwners == b.inFlightOwners && a.nextRunId == b.nextRunId
    && (forall t :: Flying(b, t) ==> Flying(a, t))
    && (forall t :: Outstanding(a, t) <==> Outstanding(b, t))
    && (Filed(a) ==> Filed(b))
  }

  lemma SteadyKeepsOccupancy(a: Runs, b: Runs)
    requires Occupancy(a) && Steady(a, b)
    ensures Occupancy(b)
  {
    forall o | o in b.inFlightOwners
      ensures Held(b, o)
    {
      assert Held(a, o);
      var t :| Outstanding(a, t) && t.job.owner == o && t.runId == a.inFlightOwners[o];
      assert Outstanding(b, t);
    }
    forall t | Outstanding(b, t)
      ensures Registered(b, t)
    {
      assert Outstanding(a, t);
    }
    forall t, u | Outstanding(b, t) && Outstanding(b, u) && t.runId == u.runId
      ensures t == u
    {
      assert Outstanding(a, t) && Outstanding(a, u);
    }
  }

  lemma KeepsIsSteady(a: Runs, jobs: JobTable)
    requires Keeps(a.jobs, jobs)
    ensures Steady(a, a.(jobs := jobs))
  {
    assert forall t :: Flying(a, t) <==> Flying(a.(jobs := jobs), t);
  }

  // ----- cancellation

  ghost predicate DistinctRuns(ts: seq<JobTicket>) {
    forall i, j :: 0 <= i < j < |ts| ==> ts[i].runId != ts[j].runId
  }

  lemma DistinctCons(t: JobTicket, ts: seq<JobTicket>)
    requires DistinctRuns(ts) && forall j :: 0 <= j < |ts| ==> t.runId != ts[j].runId
    ensures DistinctRuns([t] + ts)
  {
  }

  lemma AddOneTicket(m: map<RunId, JobTicket>, ts: seq<JobTicket>)
    requires ts != []
    ensures var last := |ts| - 1;
      AddTickets(m, ts) == AddTickets(m, ts[..last])[ts[last].runId := ts[last]]
  {
  }

  lemma {:induction false} AddTicketsLookup(m: map<RunId, JobTicket>, ts: seq<JobTicket>, k: RunId)
    requires DistinctRuns(ts)
    requires k in AddTickets(m, ts)
    ensures forall t :: t in ts && t.runId == k ==> AddTickets(m, ts)[k] == t
    ensures (forall t :: t in ts ==> t.runId != k) ==> k in m && AddTickets(m, ts)[k] == m[k]
  {
    if ts != [] {
      var last := |ts| - 1;
      AddOneTicket(m, ts);
      forall t | t in ts && t.runId == ts[last].runId
        ensures t == ts[last]
      {
      }
      if k != ts[last].runId {
        hide AddTickets;
        AddTicketsLookup(m, ts[..last], k);
        assert forall t :: t in ts && t.runId == k ==> t in ts[..last];
      }
    }
  }

  lemma RunsDiffer(r: Runs, t: JobTicket, u: JobTicket)
    requires Occupancy(r) && Flying(r, t) && Flying(r, u) && t.job != u.job
    ensures t.runId != u.runId
  {
    assert Outstanding(r, t) && Outstanding(r, u);
  }

  lemma {:induction false} TicketsDistinct(ids: seq<JobId>, r: Runs)
    requires Occupancy(r)
    requires forall id :: id in ids ==> id in r.jobs
    requires forall i, j :: 0 <= i < j < |ids| ==> ids[i] != ids[j]
    ensures DistinctRuns(InFlightTickets(ids, r.jobs))
  {
    if ids != [] {
      TicketsDistinct(ids[1..], r);
      var rest := InFlightTickets(ids[1..], r.jobs);
      if r.jobs[ids[0]].inFlight.Some? {
        var t := r.jobs[ids[0]].inFlight.value;
        forall j | 0 <= j < |rest|
          ensures t.runId != rest[j].runId
        {
          var u := rest[j];
          assert u in rest;
          var id :| id in ids[1..] && r.jobs[id].inFlight == Some(u);
          RunsDiffer(r, t, u);
        }
        DistinctCons(t, rest);
        assert InFlightTickets(ids, r.jobs) == [t] + rest;
      } else {
        assert InFlightTickets(ids, r.jobs) == rest;
      }
    }
  }

  lemma MovedTickets(r: Runs, which: set<JobId>)
    requires Occupancy(r)
    ensures var ts := Moved(r.jobs, which);
      && (forall t :: t in ts <==> Flying(r, t) && t.job in which)
      && DistinctRuns(ts)
  {
    var ids := InOrder(which * r.jobs.Keys);
    TicketsDistinct(ids, r);
    forall t | t in Moved(r.jobs, which)
      ensures Flying(r, t) && t.job in which
    {
      var id :| id in ids && r.jobs[id].inFlight == Some(t);
      assert id in which * r.jobs.Keys;
    }
    forall t | Flying(r, t) && t.job in which
      ensures t in Moved(r.jobs, which)
    {
      assert t.job in ids;
    }
  }

  /** Every entry of the cancelling table was there before or is a run just moved there. */
  lemma CancellingAfter(r: Runs, which: set<JobId>, k: RunId)
    requires Occupancy(r)
    ensures var after := CancelRuns(r, which).cancelling;
      k in after ==>
        && after[k].runId == k
        && (if k in r.cancelling then after[k] == r.cancelling[k] else Flying(r, after[k]) && after[k].job in which)
  {
    var ts := Moved(r.jobs, which);
    var after := AddTickets(r.cancelling, ts);
    MovedTickets(r, which);
    if k in after {
      AddTicketsLookup(r.cancelling, ts, k);
      if k in r.cancelling {
        assert forall t :: t in ts ==> t.runId != k;
      }
    }
  }

  lemma MovedAreCancelling(r: Runs, which: set<JobId>, t: JobTicket)
    requires Occupancy(r) && Flying(r, t) && t.job in which
    ensures Cancelling(CancelRuns(r, which), t)
  {
    MovedTickets(r, which);
    AddTicketsLookup(r.cancelling, Moved(r.jobs, which), t.runId);
  }

  /** Cancelling moves exactly the chosen jobs' runs from in flight to cancelling. */
  lemma CancelIsSteady(r: Runs, which: set<JobId>)
    requires Occupancy(r)
    ensures var after := CancelRuns(r, which);
      && Steady(r, after)
      && (forall t :: Flying(after, t) <==> Flying(r, t) && t.job !in which)
      && (forall t :: Flying(r, t) && t.job in which ==> Cancelling(after, t))
  {
    var after := CancelRuns(r, which);
    assert forall t :: Flying(after, t) <==> Flying(r, t) && t.job !in which;
    forall k | k in after.cancelling
      ensures after.cancelling[k].runId == k
      ensures if k in r.cancelling then after.cancelling[k] == r.cancelling[k]
              else Flying(r, after.cancelling[k]) && after.cancelling[k].job in which
    {
      CancellingAfter(r, which, k);
    }
    forall t | Flying(r, t) && t.job in which
      ensures Cancelling(after, t)
    {
      MovedAreCancelling(r, which, t);
    }
    forall t | Flying(after, t)
      ensures t.runId !in after.cancelling
    {
      if t.runId in after.cancelling {
        var u := after.cancelling[t.runId];
        assert Outstanding(r, u) && Outstanding(r, t);
      }
    }
  }

  // ----- starting, finishing and releasing one run

  lemma LaunchKeepsOccupancy(r: Runs, t: JobTicket)
    requires Occupancy(r) && t.job in r.jobs && t.runId == r.nextRunId
    requires t.job.owner !in r.inFlightOwners
    ensures Occupancy(Launch(r, t))
    ensures forall u :: Flying(Launch(r, t), u) <==> Flying(r, u) || u == t
    ensures forall u :: Outstanding(Launch(r, t), u) <==> Outstanding(r, u) || u == t
  {
    hide Launch, Filed, Flying, Outstanding;
    var after := Launch(r, t);
    LaunchedRuns(r, t);
    forall u | Outstanding(after, u)
      ensures Registered(after, u)
    {
      if u != t { assert Registered(r, u); }
    }
    forall o | o in after.inFlightOwners
      ensures Held(after, o)
    {
      if o == t.job.owner {
        assert Outstanding(after, t);
      } else {
        assert Held(r, o);
        var u :| Outstanding(r, u) && u.job.owner == o && u.runId == r.inFlightOwners[o];
        assert Outstanding(after, u);
      }
    }
    assert Filed(after) by { LaunchedFiled(r, t); }
  }

  lemma LaunchedRuns(r: Runs, t: JobTicket)
    requires Occupancy(r) && t.job in r.jobs && t.job.owner !in r.inFlightOwners
    ensures var after := Launch(r, t);
      && after.inFlightOwners == r.inFlightOwners[t.job.owner := t.runId] && after.nextRunId == t.runId + 1
      && (forall u :: Flying(after, u) <==> Flying(r, u) || u == t)
      && (forall u :: Outstanding(after, u) <==> Outstanding(r, u) || u == t)
  {
    if r.jobs[t.job].inFlight.Some? {
      assert Outstanding(r, r.jobs[t.job].inFlight.value);
    }
  }

  lemma LaunchedFiled(r: Runs, t: JobTicket)
    requires Occupancy(r) && t.job in r.jobs && t.runId == r.nextRunId
    ensures Filed(Launch(r, t))
  {
    hide Registered, Held;
    assert forall k :: k in r.cancelling ==> Outstanding(r, r.cancelling[k]) && k < r.nextRunId by { CancellingRegistered(r); }
  }

  lemma CancellingRegistered(r: Runs)
    requires Occupancy(r)
    ensures forall k :: k in r.cancelling ==> Outstanding(r, r.cancelling[k]) && k < r.nextRunId
  {
    forall k | k in r.cancelling
      ensures Outstanding(r, r.cancelling[k]) && k < r.nextRunId
    {
      assert Outstanding(r, r.cancelling[k]);
      assert Registered(r, r.cancelling[k]);
    }
  }

  /** Runs `b` are runs `a` without `t`, whose owner is free again. */
  ghost predicate Without(a: Runs, t: JobTicket, b: Runs) {
    && (forall u :: Flying(b, u) ==> Flying(a, u))
    && (forall u :: Outstanding(b, u) <==> Outstanding(a, u) && u != t)
    && b.inFlightOwners == a.inFlightOwners - {t.job.owner}
    && b.nextRunId == a.nextRunId
    && Filed(b)
  }

  lemma WithoutKeepsOccupancy(a: Runs, t: JobTicket, b: Runs)
    requires Occupancy(a) && Outstanding(a, t) && Without(a, t, b)
    ensures Occupancy(b)
  {
    forall u | Outstanding(b, u)
      ensures Registered(b, u)
    {
      assert Registered(a, u) && Registered(a, t);
    }
    forall o | o in b.inFlightOwners
      ensures Held(b, o)
    {
      assert Held(a, o);
      var u :| Outstanding(a, u) && u.job.owner == o && u.runId == a.inFlightOwners[o];
      assert Outstanding(b, u);
    }
  }

  lemma CompletionLands(jobs: JobTable, t: JobTicket, completion: CompletionKind, now: Time)
    requires t.job in jobs
    ensures var after := CompletedJobs(jobs, t, completion, now);
      && after.Keys == jobs.Keys
      && forall id :: id in jobs ==>
           after[id].spec == jobs[id].spec
           && after[id].inFlight == if id == t.job then None else jobs[id].inFlight
  {
    var landed := jobs[t.job := Completed(jobs[t.job], completion, now)];
    assert landed[t.job].inFlight == None && landed[t.job].spec == jobs[t.job].spec;
    if completion == ConfirmedAbsent {
      assert Keeps(landed, Orphaned(landed, Dependents(landed, t.job)));
    }
  }

  lemma CompletionReleases(r: Runs, t: JobTicket, completion: CompletionKind, now: Time)
    requires Occupancy(r) && Flying(r, t)
    ensures Without(r, t, r.(jobs := CompletedJobs(r.jobs, t, completion, now),
                             inFlightOwners := r.inFlightOwners - {t.job.owner}))
  {
    var after := r.(jobs := CompletedJobs(r.jobs, t, completion, now), inFlightOwners := r.inFlightOwners - {t.job.owner});
    hide CompletedJobs;
    CompletionLands(r.jobs, t, completion, now);
    assert forall u :: Flying(after, u) <==> Flying(r, u) && u != t;
    assert !Cancelling(r, t);
  }

  lemma AcknowledgementReleases(r: Runs, t: JobTicket)
    requires Occupancy(r) && Cancelling(r, t)
    ensures Without(r, t, ReleaseRun(r, t))
  {
    var after := ReleaseRun(r, t);
    assert Outstanding(r, t);
    assert forall u :: Flying(after, u) <==> Flying(r, u);
    forall u | Flying(r, u)
      ensures u != t
    {
      assert u.runId !in r.cancelling;
    }
  }
}
