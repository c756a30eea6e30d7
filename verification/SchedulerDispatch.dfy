/** Dispatch: which runs start, in which order, and why no further run could have started. */
module SchedulerDispatch {
  import opened Ordering
  import opened SchedulerModel
  import opened SchedulerSpec
  import opened SchedulerSafety

  ghost predicate Starts(acts: seq<SchedulerAction>, t: JobTicket) {
    StartJob(t) in acts
  }

  /** Apart from runs, `b` is `a`; and `b`'s jobs differ from `a`'s only where a run was started. */
  ghost predicate OnlyRuns(a: State, b: State) {
    && b == a.(runs := b.runs)
    && b.runs.jobs.Keys == a.runs.jobs.Keys
    && b.runs.cancelling == a.runs.cancelling
    && (forall id :: id in a.runs.jobs ==>
          && b.runs.jobs[id].spec == a.runs.jobs[id].spec
          && b.runs.jobs[id].hasSample == a.runs.jobs[id].hasSample
          && b.runs.jobs[id].failureCount == a.runs.jobs[id].failureCount
          && b.runs.jobs[id].retryDue == a.runs.jobs[id].retryDue
          && b.runs.jobs[id].nominalDue == a.runs.jobs[id].nominalDue)
  }

  /** The runs in `y` are those of `x` and the ones `y` says it started, on owners that were free. */
  ghost predicate Launched(x: Step, y: Step) {
    && Occupancy(y.s.runs)
    && OnlyRuns(x.s, y.s)
    && x.s.runs.nextRunId <= y.s.runs.nextRunId
    && (forall t :: Flying(y.s.runs, t) <==> Flying(x.s.runs, t) || Starts(y.acts, t))
    && (forall t :: Outstanding(y.s.runs, t) <==> Outstanding(x.s.runs, t) || Starts(y.acts, t))
    && (forall t :: Starts(y.acts, t) ==> FreshRun(x.s, t))
    && (forall a :: a in x.acts ==> a in y.acts)
  }

  /** A run that `s` may start: a new number, the current generations, a free owner. */
  ghost predicate FreshRun(s: State, t: JobTicket) {
    && t.runId >= s.runs.nextRunId && CurrentGenerations(s, t)
    && t.job in s.runs.jobs && t.job.owner !in s.runs.inFlightOwners
  }

  lemma StartOneLaunches(x: Step, y: Step, id: JobId)
    requires Launched(x, y) && id in y.s.runs.jobs && id.owner !in y.s.runs.inFlightOwners
    requires x.s.runs.inFlightOwners.Keys <= y.s.runs.inFlightOwners.Keys
    ensures Launched(x, StartOne(y, id))
  {
    hide Occupancy, Flying, Filed, Launch, Outstanding;
    var t := TicketFor(y.s, id);
    LaunchKeepsOccupancy(y.s.runs, t);
    assert OnlyRuns(x.s, StartOne(y, id).s) by { LaunchIsOnlyRuns(x.s, y.s, t); }
    assert forall u :: Starts(StartOne(y, id).acts, u) <==> Starts(y.acts, u) || u == t;
    assert t.runId >= x.s.runs.nextRunId;
    assert Launch(y.s.runs, t).nextRunId == t.runId + 1 by { LaunchIsOnlyRuns(x.s, y.s, t); }
  }

  lemma LaunchIsOnlyRuns(a: State, b: State, t: JobTicket)
    requires OnlyRuns(a, b) && t.job in b.runs.jobs
    ensures OnlyRuns(a, b.(runs := Launch(b.runs, t)))
    ensures Launch(b.runs, t).nextRunId == t.runId + 1
    ensures Launch(b.runs, t).inFlightOwners == b.runs.inFlightOwners[t.job.owner := t.runId]
  {
  }

  /** Each owner's run is the first candidate of that owner. */
  ghost predicate FirstOfOwner(cs: seq<Candidate>, t: JobTicket) {
    exists i :: 0 <= i < |cs| && cs[i].id == t.job && forall j :: 0 <= j < i ==> cs[j].id.owner != t.job.owner
  }

  lemma FirstOfOwnerExtends(cs: seq<Candidate>, n: nat, t: JobTicket)
    requires n <= |cs| && FirstOfOwner(cs[..n], t)
    ensures FirstOfOwner(cs, t)
  {
    var i :| 0 <= i < n && cs[..n][i].id == t.job && forall j :: 0 <= j < i ==> cs[..n][j].id.owner != t.job.owner;
    assert cs[i].id == t.job && forall j :: 0 <= j < i ==> cs[j].id.owner != t.job.owner;
  }

  ghost predicate OwnersAfter(x: Step, y: Step, cs: seq<Candidate>) {
    forall o :: o in y.s.runs.inFlightOwners <==> o in x.s.runs.inFlightOwners || Wants(cs, o)
  }

  ghost predicate Wants(cs: seq<Candidate>, o: OwnerId) {
    exists c :: c in cs && c.id.owner == o
  }

  ghost predicate AllFirst(y: Step, cs: seq<Candidate>) {
    forall t :: Starts(y.acts, t) ==> FirstOfOwner(cs, t)
  }

  lemma {:induction false} StartEachLaunches(x: Step, cs: seq<Candidate>)
    requires Occupancy(x.s.runs) && (forall a :: a in x.acts ==> !a.StartJob?)
    requires Listed(x.s.runs.jobs, cs)
    ensures var y := StartEach(x, cs);
      Launched(x, y) && OwnersAfter(x, y, cs) && AllFirst(y, cs)
  {
    hide Occupancy, Filed, Flying, Launch, Launched, FirstOfOwner;
    if cs == [] {
      assert Launched(x, x) by { LaunchedSelf(x); }
    } else {
      var last := |cs| - 1;
      var prefix := cs[..last];
      assert cs == prefix + [cs[last]];
      StartEachLaunches(x, prefix);
      StepLaunches(x, StartEach(x, prefix), cs);
    }
  }

  lemma LaunchedSelf(x: Step)
    requires Occupancy(x.s.runs) && (forall a :: a in x.acts ==> !a.StartJob?)
    ensures Launched(x, x)
  {
    hide Occupancy;
  }

  lemma StepLaunches(x: Step, y: Step, cs: seq<Candidate>)
    requires cs != [] && Listed(y.s.runs.jobs, cs)
    requires var prefix := cs[..|cs| - 1]; Launched(x, y) && OwnersAfter(x, y, prefix) && AllFirst(y, prefix)
    ensures var z := StartOne(y, cs[|cs| - 1].id);
      Launched(x, z) && OwnersAfter(x, z, cs) && AllFirst(z, cs)
  {
    hide Occupancy, Filed, Flying, Launched, FirstOfOwner, Launch;
    var last := |cs| - 1;
    var prefix := cs[..last];
    var c := cs[last];
    assert cs == prefix + [c];
    assert c in cs;
    assert forall o :: Wants(cs, o) <==> Wants(prefix, o) || o == c.id.owner;
    forall t | Starts(y.acts, t)
      ensures FirstOfOwner(cs, t)
    {
      FirstOfOwnerExtends(cs, last, t);
    }
    if c.id.owner !in y.s.runs.inFlightOwners {
      StartOneLaunches(x, y, c.id);
      var t := TicketFor(y.s, c.id);
      LaunchIsOnlyRuns(y.s, y.s, t) by { assert OnlyRuns(y.s, y.s); }
      assert FirstOfOwner(cs, t) by { LastIsFirst(cs, t); }
      assert forall u :: Starts(StartOne(y, c.id).acts, u) ==> Starts(y.acts, u) || u == t;
    }
  }

  lemma LastIsFirst(cs: seq<Candidate>, t: JobTicket)
    requires cs != [] && cs[|cs| - 1].id == t.job && !Wants(cs[..|cs| - 1], t.job.owner)
    ensures FirstOfOwner(cs, t)
  {
    var last := |cs| - 1;
    forall j | 0 <= j < last
      ensures cs[j].id.owner != t.job.owner
    {
      assert cs[j] in cs[..last];
    }
  }

  lemma CandidatesListed(s: State)
    ensures Listed(s.runs.jobs, CandidatesInOrder(Candidates(s)))
    ensures forall c :: c in CandidatesInOrder(Candidates(s)) <==>
              c.id in s.runs.jobs && Startable(s, c.id) && c == RankOf(s, c.id)
  {
    hide Startable;
    assert forall id :: id in s.runs.jobs && Startable(s, id) ==> s.runs.jobs[id].pendingSince.Some? by {
      StartableIsPending(s);
    }
  }

  lemma StartableIsPending(s: State)
    ensures forall id :: id in s.runs.jobs && Startable(s, id) ==> s.runs.jobs[id].pendingSince.Some?
  {
  }

  /** The first of its owner in ascending order ranks before every other candidate of that owner. */
  lemma FirstRanksFirst(s: State, t: JobTicket)
    requires FirstOfOwner(CandidatesInOrder(Candidates(s)), t)
    ensures t.job in s.runs.jobs && Startable(s, t.job)
    ensures forall id :: id in s.runs.jobs && Startable(s, id) && id.owner == t.job.owner && id != t.job ==>
              CandidateLess(RankOf(s, t.job), RankOf(s, id))
  {
    hide Startable, RankOf, CandidateLess, CandidatesInOrder;
    StartableIsPending(s);
    CandidatesListed(s);
    var cs := CandidatesInOrder(Candidates(s));
    assert Ascending(cs, CandidateLess) by { CandidatesAscend(s); }
    var i :| 0 <= i < |cs| && cs[i].id == t.job && forall j :: 0 <= j < i ==> cs[j].id.owner != t.job.owner;
    assert cs[i] in cs;
    forall id | id in s.runs.jobs && Startable(s, id) && id.owner == t.job.owner && id != t.job
      ensures CandidateLess(RankOf(s, t.job), RankOf(s, id))
    {
      var c := RankOf(s, id);
      assert c.id == id by { RankIds(s, id); }
      assert c in cs;
      var j :| 0 <= j < |cs| && cs[j] == c;
    }
  }

  lemma RankIds(s: State, id: JobId)
    requires id in s.runs.jobs && s.runs.jobs[id].pendingSince.Some?
    ensures RankOf(s, id).id == id
  {
  }

  lemma CandidatesAscend(s: State)
    ensures Ascending(CandidatesInOrder(Candidates(s)), CandidateLess)
  {
    hide Candidates, CandidateLess;
  }

  /** No job that could start is left behind with a free owner. */
  ghost predicate WorkConserving(before: State, after: State) {
    forall id :: id in before.runs.jobs && Startable(before, id) ==> id.owner in after.runs.inFlightOwners
  }

  /** Until the first paint is out the panel jobs it is made of go first; then the job that has waited longest does, and
      among those the first in job order. */
  predicate GoesBefore(s: State, a: JobId, b: JobId)
    requires a in s.runs.jobs && b in s.runs.jobs
  {
    var ra, rb := s.runs.jobs[a], s.runs.jobs[b];
    && ra.pendingSince.Some? && rb.pendingSince.Some?
    && if !s.paint.firstPaintIssued && ra.spec.startupPanel != rb.spec.startupPanel then ra.spec.startupPanel
       else if ra.pendingSince != rb.pendingSince then ra.pendingSince.value < rb.pendingSince.value
       else JobLess(a, b)
  }

  lemma RankDecides(s: State, a: JobId, b: JobId)
    requires a in s.runs.jobs && b in s.runs.jobs && Startable(s, a) && Startable(s, b)
    ensures s.runs.jobs[a].pendingSince.Some? && s.runs.jobs[b].pendingSince.Some?
    ensures CandidateLess(RankOf(s, a), RankOf(s, b)) <==> GoesBefore(s, a, b)
  {
    hide HistoryReady, CurrentDemand, JobLess;
  }

  /** Dispatch starts, for each free owner that some startable job wants, exactly the best-ranked such
      job, under a fresh run number; nothing else changes. */
  lemma DispatchStartsTheBest(x: Step)
    requires Occupancy(x.s.runs) && (forall a :: a in x.acts ==> !a.StartJob?)
    ensures var y := Dispatch(x);
      && Launched(x, y)
      && (forall t :: Starts(y.acts, t) ==>
            && x.s.lifecycle == Running && x.s.handshake.awaiting.None?
            && t.job in x.s.runs.jobs && Startable(x.s, t.job)
            && forall id :: id in x.s.runs.jobs && Startable(x.s, id) && id.owner == t.job.owner && id != t.job ==>
                 GoesBefore(x.s, t.job, id))
      && (x.s.lifecycle == Running && x.s.handshake.awaiting.None? ==> WorkConserving(x.s, y.s))
  {
    hide Occupancy, Filed, Flying, Launched, Startable, RankOf, CandidateLess, CandidatesInOrder, FirstOfOwner, StartEach, Candidates;
    LaunchedSelf(x);
    StartableIsPending(x.s);
    var cs := CandidatesInOrder(Candidates(x.s));
    CandidatesListed(x.s);
    StartEachLaunches(x, cs);
    var y := Dispatch(x);
    if x.s.lifecycle == Running && x.s.handshake.awaiting.None? {
      forall t | Starts(y.acts, t)
        ensures t.job in x.s.runs.jobs && Startable(x.s, t.job)
        ensures forall id :: id in x.s.runs.jobs && Startable(x.s, id) && id.owner == t.job.owner && id != t.job ==>
                  GoesBefore(x.s, t.job, id)
      {
        FirstRanksFirst(x.s, t);
        forall id | id in x.s.runs.jobs && Startable(x.s, id) && id.owner == t.job.owner && id != t.job
          ensures GoesBefore(x.s, t.job, id)
        {
          RankDecides(x.s, t.job, id);
        }
      }
      forall id | id in x.s.runs.jobs && Startable(x.s, id)
        ensures id.owner in y.s.runs.inFlightOwners
      {
        RankIds(x.s, id);
        var c := RankOf(x.s, id);
        assert c in cs;
        assert Wants(cs, id.owner);
      }
    } else {
      NoStartsHere(x);
    }
  }

  lemma NoStartsHere(x: Step)
    requires forall a :: a in x.acts ==> !a.StartJob?
    ensures forall t :: !Starts(x.acts, t)
  {
  }
}
