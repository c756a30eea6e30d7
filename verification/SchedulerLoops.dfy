/** What the scheduler's loops over its job table have done part of the way through, and once through
    (src/scheduler/machine.rs iterates a `BTreeMap` in key order). */
module SchedulerLoops {
  import opened Wrappers
  import opened Ordering
  import opened SchedulerPolicy
  import opened SchedulerModel
  import opened SchedulerSpec

  // ----- loops over an ordered table

  /** The ids that lie in `keep`, in the order given. */
  function Only(ids: seq<JobId>, keep: set<JobId>): (r: seq<JobId>)
    ensures forall id :: id in r <==> id in ids && id in keep
  {
    if ids == [] then []
    else
      var last := |ids| - 1;
      assert ids == ids[..last] + [ids[last]];
      Only(ids[..last], keep) + (if ids[last] in keep then [ids[last]] else [])
  }

  lemma {:induction false} OnlyAscends(ids: seq<JobId>, keep: set<JobId>)
    requires Ascending(ids, JobLess)
    ensures Ascending(Only(ids, keep), JobLess)
  {
    if ids != [] {
      var last := |ids| - 1;
      OnlyAscends(ids[..last], keep);
      var r := Only(ids[..last], keep);
      forall i | 0 <= i < |r|
        ensures JobLess(r[i], ids[last])
      {
        assert r[i] in r;
        var k :| 0 <= k < last && ids[k] == r[i];
      }
    }
  }

  lemma NoMembers(b: seq<JobId>)
    ensures b == [] || exists id :: id in b
  {
    if b != [] { assert b[0] in b; }
  }

  lemma HeadIsLeast(a: seq<JobId>, id: JobId)
    requires Ascending(a, JobLess) && id in a
    ensures a[0] == id || JobLess(a[0], id)
  {
  }

  /** A set has only one ascending listing. */
  lemma {:induction false} AscendingUnique(a: seq<JobId>, b: seq<JobId>)
    requires Ascending(a, JobLess) && Ascending(b, JobLess)
    requires forall id :: id in a <==> id in b
    ensures a == b
  {
    if a == [] {
      NoMembers(b);
    } else {
      assert a[0] in b;
      assert b[0] in a;
      HeadIsLeast(a, b[0]);
      HeadIsLeast(b, a[0]);
      forall id
        ensures id in a[1..] <==> id in b[1..]
      {
        TailMembers(a, id);
        TailMembers(b, id);
      }
      AscendingUnique(a[1..], b[1..]);
    }
  }

  lemma TailMembers(a: seq<JobId>, id: JobId)
    requires a != [] && Ascending(a, JobLess)
    ensures id in a[1..] <==> id in a && id != a[0]
  {
    if id in a[1..] {
      var k :| 1 <= k < |a| && a[k] == id;
      assert JobLess(a[0], a[k]);
    }
  }

  lemma OnlyInOrder(ids: set<JobId>, keep: set<JobId>)
    ensures Only(InOrder(ids), keep) == InOrder(keep * ids)
  {
    OnlyAscends(InOrder(ids), keep);
    AscendingUnique(Only(InOrder(ids), keep), InOrder(keep * ids));
  }

  lemma {:induction false} TicketsAppend(ids: seq<JobId>, id: JobId, jobs: JobTable)
    requires id in jobs && forall k :: k in ids ==> k in jobs
    ensures InFlightTickets(ids + [id], jobs)
         == InFlightTickets(ids, jobs) + (if jobs[id].inFlight.Some? then [jobs[id].inFlight.value] else [])
  {
    if ids == [] {
      assert ids + [id] == [id];
    } else {
      assert (ids + [id])[1..] == ids[1..] + [id] && (ids + [id])[0] == ids[0];
      TicketsAppend(ids[1..], id, jobs);
      var head := if jobs[ids[0]].inFlight.Some? then [jobs[ids[0]].inFlight.value] else [];
      var end := if jobs[id].inFlight.Some? then [jobs[id].inFlight.value] else [];
      assert head + (InFlightTickets(ids[1..], jobs) + end) == (head + InFlightTickets(ids[1..], jobs)) + end;
    }
  }

  lemma CancelAppend(ts: seq<JobTicket>, t: JobTicket, reason: CancelReason)
    ensures CancelActions(ts + [t], reason) == CancelActions(ts, reason) + [CancelJob(t, reason)]
  {
  }

  lemma AddAppend(m: map<RunId, JobTicket>, ts: seq<JobTicket>, t: JobTicket)
    ensures AddTickets(m, ts + [t]) == AddTickets(m, ts)[t.runId := t]
  {
    assert (ts + [t])[..|ts|] == ts;
  }

  /** The first `i` of `ids`. */
  function Visited(ids: seq<JobId>, i: nat): set<JobId>
    requires i <= |ids|
  {
    set id | id in ids[..i]
  }

  lemma VisitedOneMore(ids: seq<JobId>, i: nat)
    requires i < |ids|
    ensures Visited(ids, i + 1) == Visited(ids, i) + {ids[i]}
  {
    assert ids[..i + 1] == ids[..i] + [ids[i]];
  }

  predicate Distinct(ids: seq<JobId>) {
    forall i, j :: 0 <= i < j < |ids| ==> ids[i] != ids[j]
  }

  /** A loop that rewrites the runtimes of the listed jobs one by one, towards `target`, has done the first `i`. */
  ghost predicate Done(ids: seq<JobId>, i: nat, before: JobTable, current: JobTable, target: JobTable) {
    && i <= |ids| && Distinct(ids)
    && current.Keys == before.Keys == target.Keys
    && (forall id :: id in current ==> current[id] == if id in ids[..i] then target[id] else before[id])
    && (forall id :: id in current && id !in ids ==> target[id] == before[id])
  }

  /** The order in which a loop over `keys` visits them. */
  ghost predicate Lists(ids: seq<JobId>, keys: set<JobId>) {
    ids == InOrder(keys)
  }

  lemma DoneNone(ids: seq<JobId>, keys: set<JobId>, before: JobTable, target: JobTable)
    requires Lists(ids, keys) && target.Keys == before.Keys
    requires forall id :: id in before && id !in keys ==> target[id] == before[id]
    ensures Done(ids, 0, before, before, target)
  {
  }

  lemma DoneOneMore(ids: seq<JobId>, i: nat, before: JobTable, current: JobTable, target: JobTable)
    requires Done(ids, i, before, current, target) && i < |ids|
    ensures ids[i] in current <==> ids[i] in before
    ensures ids[i] in current ==>
      && current[ids[i]] == before[ids[i]]
      && Done(ids, i + 1, before, current[ids[i] := target[ids[i]]], target)
      && (target[ids[i]] == before[ids[i]] ==> Done(ids, i + 1, before, current, target))
    ensures ids[i] !in current ==> Done(ids, i + 1, before, current, target)
  {
    assert ids[..i + 1] == ids[..i] + [ids[i]];
    assert ids[i] !in ids[..i];
    if ids[i] in current {
      var next := current[ids[i] := target[ids[i]]];
      assert next.Keys == current.Keys;
      assert target[ids[i]] == before[ids[i]] ==> next == current;
    }
  }

  lemma DoneAll(ids: seq<JobId>, before: JobTable, current: JobTable, target: JobTable)
    requires Done(ids, |ids|, before, current, target)
    ensures current == target
  {
    assert ids[..|ids|] == ids;
    assert forall id :: id in current ==> current[id] == target[id];
  }

  lemma MarkNone(ids: seq<JobId>, keys: set<JobId>, table: JobTable, which: set<JobId>, now: Time)
    requires Lists(ids, keys) && which <= keys
    ensures Visited(ids, 0) == {}
    ensures Done(ids, 0, table, table, Marked(table, which, now))
  {
  }

  lemma MarkOneMore(ids: seq<JobId>, i: nat, table: JobTable, current: JobTable, which: set<JobId>, now: Time)
    requires i < |ids| && Done(ids, i, table, current, Marked(table, which, now))
    ensures ids[i] in current <==> ids[i] in table
    ensures ids[i] in current ==> current[ids[i]] == table[ids[i]]
    ensures ids[i] in which && ids[i] in current ==>
      Done(ids, i + 1, table, current[ids[i] := current[ids[i]].MarkPending(now)], Marked(table, which, now))
    ensures ids[i] !in which || ids[i] !in current ==> Done(ids, i + 1, table, current, Marked(table, which, now))
  {
    DoneOneMore(ids, i, table, current, Marked(table, which, now));
  }

  lemma MarkAll(ids: seq<JobId>, table: JobTable, current: JobTable, which: set<JobId>, now: Time)
    requires Done(ids, |ids|, table, current, Marked(table, which, now))
    ensures current == Marked(table, which, now)
  {
    DoneAll(ids, table, current, Marked(table, which, now));
  }

  lemma VisitedAll(ids: seq<JobId>, keys: set<JobId>)
    requires Lists(ids, keys)
    ensures Visited(ids, |ids|) == keys
  {
    assert ids[..|ids|] == ids;
  }

  lemma MarkedNone(table: JobTable, now: Time)
    ensures Marked(table, {}, now) == table
  {
  }

  lemma MarkedKeys(table: JobTable, now: Time)
    ensures forall which :: Marked(table, which, now).Keys == table.Keys
  {
  }

  lemma InvalidateOneMore(ids: seq<JobId>, i: nat, reason: CancelReason)
    requires i <= |ids|
    ensures i == 0 ==> InvalidateAll(ids[..i], reason) == []
    ensures i < |ids| ==> InvalidateAll(ids[..i + 1], reason) == InvalidateAll(ids[..i], reason) + [InvalidateJob(ids[i], reason, None)]
  {
  }

  lemma SameSourceStays(prior: JobSpec, spec: JobSpec)
    ensures prior == spec ==> !SourceChanged(prior, spec)
  {
  }

  lemma TimedKeys(table: JobTable, demanded: set<JobId>, now: Time)
    ensures TimedJobs(table, demanded, now).Keys == table.Keys
  {
  }

  lemma TimedAt(table: JobTable, demanded: set<JobId>, now: Time, id: JobId)
    requires id in table
    ensures id in TimedJobs(table, demanded, now)
    ensures TimedJobs(table, demanded, now)[id]
         == if id in demanded then TimedRuntime(table[id], HistoryReady(table[id].spec, table), now) else table[id]
  {
  }

  lemma OnlyOneMore(ids: seq<JobId>, i: nat, keep: set<JobId>)
    requires i < |ids|
    ensures Only(ids[..i + 1], keep) == Only(ids[..i], keep) + if ids[i] in keep then [ids[i]] else []
  {
    assert ids[..i + 1][..i] == ids[..i];
  }

  lemma OrphanedAt(table: JobTable, lost: set<JobId>)
    ensures Orphaned(table, lost).Keys == table.Keys
    ensures forall id :: id in table && id !in lost ==> Orphaned(table, lost)[id] == table[id]
    ensures forall id :: id in table && id in lost ==>
      Orphaned(table, lost)[id] == table[id].(hasSample := false, pendingSince := None, pendingHistoryDeadline := None)
  {
  }

  /** The first of the two loops of `resume`: periodic and history timers catch up. */
  ghost function AllCaughtUp(jobs: JobTable, now: Time): JobTable {
    map id | id in jobs :: ResumedDeadline(jobs[id], now)
  }

  /** What the second loop of `resume` does to one runtime. */
  function Restarted(rt: JobRuntime, demanded: bool, now: Time): JobRuntime {
    (if rt.spec.counter then rt.(needsBaseline := true) else rt).(
      pendingSince := if demanded && rt.spec.timing != History then Some(now) else None,
      pendingHistoryDeadline := None,
      retryDue := None)
  }

  lemma RestartKeys(jobs: JobTable, demanded: set<JobId>, now: Time)
    ensures AllCaughtUp(jobs, now).Keys == jobs.Keys == ResumedJobs(jobs, demanded, now).Keys
  {
  }

  lemma RestartAt(jobs: JobTable, demanded: set<JobId>, now: Time, id: JobId)
    requires id in jobs
    ensures id in AllCaughtUp(jobs, now) && id in ResumedJobs(jobs, demanded, now)
    ensures AllCaughtUp(jobs, now)[id].spec == jobs[id].spec
    ensures ResumedJobs(jobs, demanded, now)[id] == Restarted(AllCaughtUp(jobs, now)[id], id in demanded, now)
  {
  }

  lemma ResetsOneMore(ids: seq<JobId>, i: nat, jobs: JobTable)
    requires i <= |ids| && forall id :: id in ids ==> id in jobs
    ensures i == 0 ==> BaselineResets(ids[..i], jobs) == []
    ensures i < |ids| ==>
      BaselineResets(ids[..i + 1], jobs)
      == BaselineResets(ids[..i], jobs) + (if jobs[ids[i]].spec.counter then [ResetCounterBaseline(ids[i])] else [])
  {
    if i < |ids| { assert ids[..i + 1][..i] == ids[..i]; }
  }

  lemma StaleIs(table: JobTable)
    ensures Stale(table) <= table.Keys
    ensures forall id :: id in table ==> (id in Stale(table) <==> WantsTooltipRefresh(table[id].spec))
  {
  }

  lemma CompletedSpec(rt: JobRuntime, completion: CompletionKind, now: Time)
    ensures Completed(rt, completion, now).spec == rt.spec
  {
  }

  lemma SameDependents(table: JobTable, id: JobId, rt: JobRuntime, source: JobId)
    requires id in table && rt.spec == table[id].spec
    ensures Dependents(table[id := rt], source) == Dependents(table, source)
  {
  }

  lemma OnlyOfAll(ids: seq<JobId>, keys: set<JobId>, keep: set<JobId>)
    requires Lists(ids, keys) && keep <= keys
    ensures Only(ids[..|ids|], keep) == InOrder(keep)
  {
    assert ids[..|ids|] == ids;
    OnlyInOrder(keys, keep);
    assert keep * keys == keep;
  }

  lemma ResetsOfAll(ids: seq<JobId>, jobs: JobTable)
    requires Lists(ids, jobs.Keys)
    ensures BaselineResets(ids[..|ids|], jobs) == BaselineResets(InOrder(jobs.Keys), jobs)
  {
    assert ids[..|ids|] == ids;
  }

  lemma ListedOneMore(jobs: JobTable, queue: seq<Candidate>, i: nat)
    requires i < |queue| && Listed(jobs, queue)
    ensures Listed(jobs, queue[..i + 1]) && queue[i].id in jobs
  {
    assert queue[i] in queue;
  }

  lemma EarliestOneMore(ids: seq<JobId>, i: nat, demanded: set<JobId>, jobs: JobTable)
    requires i <= |ids|
    ensures var keep := demanded * jobs.Keys;
      && (i == 0 ==> EarliestJob(Only(ids[..i], keep), jobs) == None)
      && (i < |ids| ==>
          && (ids[i] in keep ==>
                EarliestJob(Only(ids[..i + 1], keep), jobs)
                == Earlier(EarliestJob(Only(ids[..i], keep), jobs), Earlier(jobs[ids[i]].retryDue, jobs[ids[i]].nominalDue)))
          && (ids[i] !in keep ==> EarliestJob(Only(ids[..i + 1], keep), jobs) == EarliestJob(Only(ids[..i], keep), jobs)))
  {
    var keep := demanded * jobs.Keys;
    if i < |ids| {
      OnlyOneMore(ids, i, keep);
      var before := Only(ids[..i], keep);
      if ids[i] in keep {
        assert (before + [ids[i]])[..|before|] == before;
      } else {
        assert before + [] == before;
      }
    }
  }

  /** The runs a loop over `ids` has cancelled after `i` jobs, when only those of the jobs in `keep` are cancelled. */
  ghost function Swept(ids: seq<JobId>, i: nat, keep: set<JobId>, jobs: JobTable): seq<JobTicket>
    requires i <= |ids| && keep <= jobs.Keys
  {
    InFlightTickets(Only(ids[..i], keep), jobs)
  }

  /** A loop that rewrites runtimes towards `target` and cancels the runs of the jobs in `keep` has done the first `i`. */
  ghost predicate Sweeping(ids: seq<JobId>, i: nat, keep: set<JobId>, reason: CancelReason, target: JobTable,
                           r0: Runs, acts0: seq<SchedulerAction>, r: Runs, acts: seq<SchedulerAction>) {
    && i <= |ids| && keep <= r0.jobs.Keys
    && Done(ids, i, r0.jobs, r.jobs, target)
    && MovedTo(r0, Swept(ids, i, keep, r0.jobs), r)
    && acts == acts0 + CancelActions(Swept(ids, i, keep, r0.jobs), reason)
  }

  /** But for its job table, `r` is `r0` with the given runs being cancelled. */
  ghost predicate MovedTo(r0: Runs, tickets: seq<JobTicket>, r: Runs) {
    r == r0.(jobs := r.jobs, cancelling := AddTickets(r0.cancelling, tickets))
  }

  lemma OneMoved(r0: Runs, tickets: seq<JobTicket>, r: Runs, t: JobTicket, jobs: JobTable)
    requires MovedTo(r0, tickets, r)
    ensures MovedTo(r0, tickets + [t], r.(jobs := jobs, cancelling := r.cancelling[t.runId := t]))
    ensures MovedTo(r0, tickets, r.(jobs := jobs))
  {
    AddAppend(r0.cancelling, tickets, t);
  }

  lemma SweptOneMore(ids: seq<JobId>, i: nat, keep: set<JobId>, jobs: JobTable)
    requires i < |ids| && keep <= jobs.Keys
    ensures Swept(ids, i + 1, keep, jobs) == Swept(ids, i, keep, jobs)
         + (if ids[i] in keep && jobs[ids[i]].inFlight.Some? then [jobs[ids[i]].inFlight.value] else [])
  {
    assert ids[..i + 1][..i] == ids[..i];
    assert ids[..i + 1][i] == ids[i];
    if ids[i] in keep {
      TicketsAppend(Only(ids[..i], keep), ids[i], jobs);
    } else {
      assert Only(ids[..i + 1], keep) == Only(ids[..i], keep) + [] == Only(ids[..i], keep);
      assert Swept(ids, i, keep, jobs) + [] == Swept(ids, i, keep, jobs);
    }
  }

  lemma SweepNone(ids: seq<JobId>, keep: set<JobId>, reason: CancelReason, target: JobTable,
                  r: Runs, acts: seq<SchedulerAction>)
    requires Done(ids, 0, r.jobs, r.jobs, target) && keep <= r.jobs.Keys
    ensures Sweeping(ids, 0, keep, reason, target, r, acts, r, acts)
  {
    hide Done;
    assert Swept(ids, 0, keep, r.jobs) == [];
    assert acts + [] == acts;
  }

  /** The loop passes a job whose run, if any, stays. */
  lemma SweepPasses(ids: seq<JobId>, i: nat, keep: set<JobId>, reason: CancelReason, target: JobTable,
                    r0: Runs, acts0: seq<SchedulerAction>, r: Runs, acts: seq<SchedulerAction>)
    requires i < |ids| && Sweeping(ids, i, keep, reason, target, r0, acts0, r, acts)
    requires ids[i] !in keep || r.jobs[ids[i]].inFlight.None?
    ensures ids[i] in r.jobs <==> ids[i] in target
    ensures ids[i] !in r.jobs ==> Sweeping(ids, i + 1, keep, reason, target, r0, acts0, r, acts)
    ensures ids[i] in r.jobs ==>
      Sweeping(ids, i + 1, keep, reason, target, r0, acts0, r.(jobs := r.jobs[ids[i] := target[ids[i]]]), acts)
    ensures ids[i] in r.jobs && target[ids[i]] == r.jobs[ids[i]] ==>
      Sweeping(ids, i + 1, keep, reason, target, r0, acts0, r, acts)
  {
    assert ids[i] in r.jobs <==> ids[i] in target;
    DoneOneMore(ids, i, r0.jobs, r.jobs, target);
    SweptOneMore(ids, i, keep, r0.jobs);
    hide Done, Swept, AddTickets, CancelActions;
    assert Swept(ids, i, keep, r0.jobs) + [] == Swept(ids, i, keep, r0.jobs);
  }

  /** The loop cancels the run of a job. */
  lemma SweepCancels(ids: seq<JobId>, i: nat, keep: set<JobId>, reason: CancelReason, target: JobTable,
                     r0: Runs, acts0: seq<SchedulerAction>, r: Runs, acts: seq<SchedulerAction>)
    requires i < |ids| && Sweeping(ids, i, keep, reason, target, r0, acts0, r, acts)
    requires ids[i] in keep && ids[i] in r.jobs && r.jobs[ids[i]].inFlight.Some?
    ensures ids[i] in target
    ensures var t := r.jobs[ids[i]].inFlight.value;
      Sweeping(ids, i + 1, keep, reason, target, r0, acts0,
               r.(jobs := r.jobs[ids[i] := target[ids[i]]], cancelling := r.cancelling[t.runId := t]),
               acts + [CancelJob(t, reason)])
  {
    hide Swept, CancelActions, MovedTo, AddTickets;
    SweepKnows(ids, i, keep, reason, target, r0, acts0, r, acts);
    DoneOneMore(ids, i, r0.jobs, r.jobs, target);
    hide Done;
    SweptOneMore(ids, i, keep, r0.jobs);
    var t, swept := r0.jobs[ids[i]].inFlight.value, Swept(ids, i, keep, r0.jobs);
    CancelAppend(swept, t, reason);
    OneMoved(r0, swept, r, t, r.jobs[ids[i] := target[ids[i]]]);
    assert acts + [CancelJob(t, reason)] == acts0 + CancelActions(swept + [t], reason);
  }

  lemma SweepKnows(ids: seq<JobId>, i: nat, keep: set<JobId>, reason: CancelReason, target: JobTable,
                   r0: Runs, acts0: seq<SchedulerAction>, r: Runs, acts: seq<SchedulerAction>)
    requires i < |ids| && Sweeping(ids, i, keep, reason, target, r0, acts0, r, acts)
    ensures ids[i] in r.jobs <==> ids[i] in r0.jobs
    ensures ids[i] in keep ==> ids[i] in r.jobs
    ensures ids[i] in r.jobs ==> r.jobs[ids[i]] == r0.jobs[ids[i]] && ids[i] in target
    ensures r.jobs.Keys == target.Keys
  {
    DoneOneMore(ids, i, r0.jobs, r.jobs, target);
  }

  ghost predicate SameRuns(a: JobTable, b: JobTable) {
    a.Keys == b.Keys && forall id :: id in a ==> a[id].inFlight == b[id].inFlight
  }

  lemma {:induction false} SameTickets(ids: seq<JobId>, a: JobTable, b: JobTable)
    requires SameRuns(a, b) && forall id :: id in ids ==> id in a
    ensures InFlightTickets(ids, a) == InFlightTickets(ids, b)
  {
    if ids != [] { SameTickets(ids[1..], a, b); }
  }

  lemma LandedAt(jobs: JobTable, which: set<JobId>, id: JobId)
    requires id in jobs
    ensures id in Landed(jobs, which)
    ensures Landed(jobs, which)[id] == if id in which then jobs[id].(inFlight := None) else jobs[id]
    ensures id in which && jobs[id].inFlight.None? ==> Landed(jobs, which)[id] == jobs[id]
  {
  }

  lemma LandedNone(ids: seq<JobId>, keys: set<JobId>, jobs: JobTable, mid: JobTable, which: set<JobId>)
    requires Lists(ids, keys) && SameRuns(jobs, mid)
    requires forall id :: id in jobs && id !in keys ==> mid[id] == jobs[id] && id !in which
    ensures Done(ids, 0, jobs, jobs, Landed(mid, which))
  {
  }

  lemma CancelNothing(r: Runs, reason: CancelReason)
    ensures CancelRuns(r, {}) == r && CancelActions(Moved(r.jobs, {}), reason) == []
  {
    var none: set<JobId> := {};
    assert none * r.jobs.Keys == none;
    NoMembers(InOrder(none));
    assert Landed(r.jobs, none) == r.jobs;
  }

  lemma Overwrite(jobs: JobTable, id: JobId, a: JobRuntime, b: JobRuntime)
    ensures jobs[id := a][id := b] == jobs[id := b]
  {
  }

  lemma DemandRefreshedRuns(jobs: JobTable, demanded: set<JobId>, now: Time)
    ensures SameRuns(jobs, DemandRefreshed(jobs, demanded, now))
  {
  }

  /** What `refresh_demand` does to one job. */
  lemma DemandRefreshedAt(jobs: JobTable, demanded: set<JobId>, now: Time, which: set<JobId>, id: JobId)
    requires id in jobs && which <= jobs.Keys - demanded
    ensures var mid := DemandRefreshed(jobs, demanded, now);
      id in Landed(mid, which) && Landed(mid, which)[id] ==
         if id in which then Rested(jobs[id]).(inFlight := None)
         else if id !in demanded then Rested(jobs[id])
         else if jobs[id].spec.timing != History && jobs[id].inFlight.None? && !jobs[id].hasSample
              then jobs[id].MarkPending(now)
         else jobs[id]
  {
  }

  lemma RestedRuns(jobs: JobTable, which: set<JobId>)
    ensures SameRuns(jobs, AllRested(jobs, which))
    ensures forall id :: id in jobs && id !in which ==> AllRested(jobs, which)[id] == jobs[id]
  {
  }

  lemma RestedAt(jobs: JobTable, which: set<JobId>, id: JobId)
    requires id in jobs && id in which
    ensures id in Landed(AllRested(jobs, which), which)
    ensures Landed(AllRested(jobs, which), which)[id] == Rested(jobs[id]).(inFlight := None)
    ensures jobs[id].inFlight.None? ==> Rested(jobs[id]).(inFlight := None) == Rested(jobs[id])
  {
  }

  /** Such a loop, once through, has rewritten the table to `mid` and cancelled the runs of the jobs in `keep`. */
  lemma SweepAll(ids: seq<JobId>, all: set<JobId>, keep: set<JobId>, which: set<JobId>, reason: CancelReason, mid: JobTable,
                 r0: Runs, acts0: seq<SchedulerAction>, r: Runs, acts: seq<SchedulerAction>)
    requires which * r0.jobs.Keys == keep * all && SameRuns(r0.jobs, mid)
    requires Lists(ids, all) && Sweeping(ids, |ids|, keep, reason, Landed(mid, which), r0, acts0, r, acts)
    ensures r == CancelRuns(r0.(jobs := mid), which)
    ensures acts == acts0 + CancelActions(Moved(mid, which), reason)
  {
    assert ids[..|ids|] == ids;
    OnlyInOrder(all, keep);
    SameTickets(InOrder(keep * all), r0.jobs, mid);
    DoneAll(ids, r0.jobs, r.jobs, Landed(mid, which));
  }
}
