/** The event path of the applet's bus connections (src/adapters/applet.rs): any number of `send` calls,
    the service loop that connects, retires and reconnects, and the daemon that receives, interleaved
    one atomic action at a time. Events carry the connection they came from, which the source's do not;
    the tag only serves to state the order. */
module Outbox {
  import opened Wrappers

  const EVENT_CAPACITY: nat := 64

  type TaskId = nat
  type ConnectionId = nat

  datatype Event =
    | Request(connection: ConnectionId, task: TaskId)
    | ConnectionLost(connection: ConnectionId)
    | ServiceFailed

  /** The mutex of an `Outbox` and what it guards; `acquired` once its connection has owned the bus name. */
  datatype Path = Path(retired: bool, holder: Option<TaskId>, acquired: bool)

  /** Where one call of `send` is: waiting for a permit, holding it, holding the lock too, past the
      check of `retired`, or finished. */
  datatype Phase = Reserving | Permitted | Locked | Cleared | Sent | Refused

  datatype Call = Call(connection: ConnectionId, phase: Phase)

  /** Where the service loop is. It owns the newest connection. */
  datatype Service =
    | Connecting            // no attempt under way
    | Dialing               // an attempt, whose interface may already be called
    | Serving
    | Retiring              // `retire` waits for its permit
    | Flagging              // `retire` holds its permit and is about to set `retired`
    | Announcing            // `retired` is set, `ConnectionLost` not yet sent
    | Failing               // another daemon owns the name; waits for a permit to say so
    | Ended

  datatype State = State(
    paths: seq<Path>,
    calls: seq<Call>,
    service: Service,
    free: nat,              // permits of the channel nobody holds
    queue: seq<Event>,      // sent and not yet received
    log: seq<Event>,        // everything ever sent
    open: bool)             // the daemon still receives

  const INITIAL: State := State([], [], Connecting, EVENT_CAPACITY, [], [], true)

  datatype Step =
    | Dial | DialFails | Acquire | NameTaken | Lose | Shutdown
    | RetireReserve | RetireFlag | RetireAnnounce | Fail
    | Arrive(connection: ConnectionId)
    | Reserve(task: TaskId) | Abort(task: TaskId) | Lock(task: TaskId) | Check(task: TaskId) | Send(task: TaskId)
    | Receive | Close

  predicate In(s: State, t: TaskId, phase: Phase) {
    t < |s.calls| && s.calls[t].phase == phase && s.calls[t].connection < |s.paths|
  }

  function Newest(s: State): int { |s.paths| - 1 }

  predicate Enabled(s: State, step: Step) {
    match step
    case Dial => s.service == Connecting
    case DialFails => s.service == Dialing
    case Acquire => s.service == Dialing
    case NameTaken => s.service == Dialing
    case Lose => s.service == Serving
    case Shutdown => s.service in {Connecting, Dialing, Serving}
    case RetireReserve => s.service == Retiring && (s.free > 0 || !s.open)
    case RetireFlag => s.service == Flagging && |s.paths| > 0 && s.paths[Newest(s)].holder.None?
    case RetireAnnounce => s.service == Announcing && |s.paths| > 0
    case Fail => s.service == Failing && (s.free > 0 || !s.open)
    case Arrive(c) => c < |s.paths|
    case Reserve(t) => In(s, t, Reserving) && (s.free > 0 || !s.open)
    case Abort(t) => In(s, t, Reserving)
    case Lock(t) => In(s, t, Permitted) && s.paths[s.calls[t].connection].holder.None?
    case Check(t) => In(s, t, Locked)
    case Send(t) => In(s, t, Cleared)
    case Receive => s.open && s.queue != []
    case Close => s.open
  }

  function Moved(s: State, t: TaskId, phase: Phase): State
    requires t < |s.calls|
  {
    s.(calls := s.calls[t := s.calls[t].(phase := phase)])
  }

  function Held(s: State, c: ConnectionId, holder: Option<TaskId>): State
    requires c < |s.paths|
  {
    s.(paths := s.paths[c := s.paths[c].(holder := holder)])
  }

  function Put(s: State, e: Event): State {
    s.(queue := s.queue + [e], log := s.log + [e])
  }

  function Next(s: State, step: Step): State
    requires Enabled(s, step)
  {
    match step
    case Dial => s.(service := Dialing, paths := s.paths + [Path(false, None, false)])
    case DialFails => s.(service := Connecting)
    case Acquire =>
      if s.paths == [] then s
      else s.(service := Serving, paths := s.paths[Newest(s) := s.paths[Newest(s)].(acquired := true)])
    case NameTaken => s.(service := Failing)
    case Lose => s.(service := Retiring)
    case Shutdown => s.(service := Ended)
    case RetireReserve => if s.open then s.(service := Flagging, free := s.free - 1) else s.(service := Ended)
    case RetireFlag =>
      s.(service := Announcing, paths := s.paths[Newest(s) := s.paths[Newest(s)].(retired := true)])
    case RetireAnnounce => Put(s, ConnectionLost(Newest(s))).(service := Connecting)
    case Fail => if s.open then Put(s, ServiceFailed).(service := Ended, free := s.free - 1) else s.(service := Ended)
    case Arrive(c) => s.(calls := s.calls + [Call(c, Reserving)])
    case Reserve(t) => if s.open then Moved(s, t, Permitted).(free := s.free - 1) else Moved(s, t, Refused)
    case Abort(t) => Moved(s, t, Refused)
    case Lock(t) => Held(Moved(s, t, Locked), s.calls[t].connection, Some(t))
    case Check(t) =>
      if s.paths[s.calls[t].connection].retired
      then Held(Moved(s, t, Refused), s.calls[t].connection, None).(free := s.free + 1)
      else Moved(s, t, Cleared)
    case Send(t) => Held(Moved(Put(s, Request(s.calls[t].connection, t)), t, Sent), s.calls[t].connection, None)
    case Receive => s.(queue := s.queue[1..], free := s.free + 1)
    case Close => s.(open := false)
  }

  /** A run; a step that is not enabled does nothing. */
  function Run(s: State, steps: seq<Step>): State {
    if steps == [] then s
    else
      var before := Run(s, steps[..|steps| - 1]);
      var step := steps[|steps| - 1];
      if Enabled(before, step) then Next(before, step) else before
  }

  // ----- what every run keeps

  /** The calls that hold a permit. */
  function Permits(calls: seq<Call>): nat {
    if calls == [] then 0
    else (if calls[0].phase in {Permitted, Locked, Cleared} then 1 else 0) + Permits(calls[1..])
  }

  function ServicePermits(service: Service): nat {
    if service in {Flagging, Announcing} then 1 else 0
  }

  /** Every permit is free, held, or stands for a queued event. */
  ghost predicate Accounted(s: State) {
    s.free + |s.queue| + Permits(s.calls) + ServicePermits(s.service) == EVENT_CAPACITY
  }

  /** Exactly the holder of a lock is inside it, and nobody is past the check of a retired path. */
  ghost predicate Guarded(s: State) {
    && (forall t :: 0 <= t < |s.calls| ==> s.calls[t].connection < |s.paths|)
    && (forall t :: 0 <= t < |s.calls| && s.calls[t].phase in {Locked, Cleared} ==>
          s.paths[s.calls[t].connection].holder == Some(t))
    && (forall c :: 0 <= c < |s.paths| && s.paths[c].holder.Some? ==>
          && s.paths[c].holder.value < |s.calls|
          && s.calls[s.paths[c].holder.value].connection == c
          && s.calls[s.paths[c].holder.value].phase in {Locked, Cleared})
    && (forall t :: 0 <= t < |s.calls| && s.calls[t].phase == Cleared ==> !s.paths[s.calls[t].connection].retired)
  }

  /** The service loop's phase agrees with the newest path; older acquired paths are retired. */
  ghost predicate Staged(s: State) {
    && (s.service !in {Connecting, Ended} ==> |s.paths| > 0)
    && (|s.paths| > 0 && s.service in {Serving, Retiring, Flagging, Announcing} ==> s.paths[Newest(s)].acquired)
    && (|s.paths| > 0 && s.service in {Dialing, Serving, Retiring, Flagging, Failing} ==> !s.paths[Newest(s)].retired)
    && (|s.paths| > 0 && s.service in {Announcing} ==> s.paths[Newest(s)].retired)
    && (|s.paths| > 0 && s.service in {Dialing, Failing} ==> !s.paths[Newest(s)].acquired)
    && (forall c :: 0 <= c < |s.paths| && s.paths[c].retired ==> s.paths[c].acquired)
    && (forall c :: 0 <= c < |s.paths| && s.paths[c].acquired && !s.paths[c].retired ==>
          c == Newest(s) && s.service in {Serving, Retiring, Flagging, Ended})
  }

  /** A lost connection has said so exactly when it is retired and no longer about to. */
  ghost predicate Logged(s: State) {
    && (forall e :: e in s.log && !e.ServiceFailed? ==> e.connection < |s.paths|)
    && (forall c :: 0 <= c < |s.paths| ==>
          (ConnectionLost(c) in s.log <==> s.paths[c].retired && !(c == Newest(s) && s.service == Announcing)))
    && (forall e :: e in s.log && e.Request? ==>
          e.task < |s.calls| && s.calls[e.task] == Call(e.connection, Sent))
    && (forall t :: 0 <= t < |s.calls| && s.calls[t].phase == Sent ==> Request(s.calls[t].connection, t) in s.log)
    && (forall i, j :: 0 <= i < j < |s.log| && s.log[i].Request? ==> s.log[i] != s.log[j])
  }

  /** Nothing of a connection follows its `ConnectionLost`, and nothing of a newer one comes before it. */
  ghost predicate Ordered(log: seq<Event>) {
    forall i, j :: 0 <= i < j < |log| && !log[i].ServiceFailed? && !log[j].ServiceFailed? ==>
      && (log[i].ConnectionLost? ==> log[j].connection != log[i].connection)
      && (log[j].ConnectionLost? ==> log[i].connection <= log[j].connection)
  }

  ghost predicate Received(s: State) {
    |s.queue| <= |s.log| && s.queue == s.log[|s.log| - |s.queue|..]
  }

  ghost predicate Inv(s: State) {
    Accounted(s) && Guarded(s) && Staged(s) && Logged(s) && Ordered(s.log) && Received(s)
  }

  lemma {:induction false} PermitsMove(calls: seq<Call>, t: TaskId, phase: Phase)
    requires t < |calls|
    ensures var holds := (p: Phase) => if p in {Permitted, Locked, Cleared} then 1 else 0;
      Permits(calls[t := calls[t].(phase := phase)]) == Permits(calls) - holds(calls[t].phase) + holds(phase)
  {
    var moved := calls[t := calls[t].(phase := phase)];
    if t == 0 {
      assert moved[1..] == calls[1..];
    } else {
      assert moved[1..] == calls[1..][t - 1 := calls[1..][t - 1].(phase := phase)];
      PermitsMove(calls[1..], t - 1, phase);
    }
  }

  lemma {:induction false} PermitsAppend(calls: seq<Call>, call: Call)
    requires call.phase == Reserving
    ensures Permits(calls + [call]) == Permits(calls)
  {
    if calls != [] {
      assert (calls + [call])[1..] == calls[1..] + [call];
      PermitsAppend(calls[1..], call);
    }
  }

  lemma StepAccounted(s: State, step: Step)
    requires Inv(s) && Enabled(s, step)
    ensures Accounted(Next(s, step))
  {
    hide Guarded, Staged, Logged, Ordered, Received, Permits;
    match step
    case Arrive(c) => PermitsAppend(s.calls, Call(c, Reserving));
    case Reserve(t) => PermitsMove(s.calls, t, if s.open then Permitted else Refused);
    case Abort(t) => PermitsMove(s.calls, t, Refused);
    case Lock(t) => PermitsMove(s.calls, t, Locked);
    case Check(t) => PermitsMove(s.calls, t, if s.paths[s.calls[t].connection].retired then Refused else Cleared);
    case Send(t) => PermitsMove(s.calls, t, Sent);
    case _ =>
  }

  /** The steps of one call of `send`. */
  predicate OfCall(step: Step) {
    step.Arrive? || step.Reserve? || step.Abort? || step.Lock? || step.Check? || step.Send?
  }

  lemma StepGuarded(s: State, step: Step)
    requires Inv(s) && Enabled(s, step)
    ensures Guarded(Next(s, step))
  {
    hide Accounted, Permits, Staged, Logged, Ordered, Received;
    if OfCall(step) {
      CallStepGuarded(s, step);
    } else {
      ServiceStepGuarded(s, step);
    }
  }

  lemma ServiceStepGuarded(s: State, step: Step)
    requires Guarded(s) && Enabled(s, step) && !OfCall(step)
    ensures Guarded(Next(s, step))
  {
  }

  lemma CallStepGuarded(s: State, step: Step)
    requires Guarded(s) && Enabled(s, step) && OfCall(step)
    ensures Guarded(Next(s, step))
  {
    hide Guarded;
    var next := Next(s, step);
    match step
    case Arrive(c) => ArriveKeepsGuard(s, c);
    case Reserve(t) =>
      MoveKeepsGuard(s, t, if s.open then Permitted else Refused);
      SameGuard(Moved(s, t, if s.open then Permitted else Refused), next);
    case Abort(t) => MoveKeepsGuard(s, t, Refused);
    case Lock(t) => LockKeepsGuard(s, t);
    case Check(t) =>
      CheckKeepsGuard(s, t);
      SameGuard(Held(Moved(s, t, Refused), s.calls[t].connection, None), Held(Moved(s, t, Refused), s.calls[t].connection, None).(free := s.free + 1));
    case Send(t) =>
      SendKeepsGuard(s, t);
      SameGuard(Held(Moved(s, t, Sent), s.calls[t].connection, None), next);
  }

  lemma SameGuard(s: State, t: State)
    requires Guarded(s) && t.calls == s.calls && t.paths == s.paths
    ensures Guarded(t)
  {
  }

  lemma ArriveKeepsGuard(s: State, c: ConnectionId)
    requires Guarded(s) && c < |s.paths|
    ensures Guarded(s.(calls := s.calls + [Call(c, Reserving)]))
  {
  }

  lemma MoveKeepsGuard(s: State, t: TaskId, phase: Phase)
    requires Guarded(s) && In(s, t, Reserving) && phase in {Permitted, Refused}
    ensures Guarded(Moved(s, t, phase))
  {
  }

  lemma LockKeepsGuard(s: State, t: TaskId)
    requires Guarded(s) && In(s, t, Permitted) && s.paths[s.calls[t].connection].holder.None?
    ensures Guarded(Held(Moved(s, t, Locked), s.calls[t].connection, Some(t)))
  {
  }

  lemma CheckKeepsGuard(s: State, t: TaskId)
    requires Guarded(s) && In(s, t, Locked)
    ensures !s.paths[s.calls[t].connection].retired ==> Guarded(Moved(s, t, Cleared))
    ensures Guarded(Held(Moved(s, t, Refused), s.calls[t].connection, None))
  {
  }

  lemma SendKeepsGuard(s: State, t: TaskId)
    requires Guarded(s) && In(s, t, Cleared)
    ensures Guarded(Held(Moved(s, t, Sent), s.calls[t].connection, None))
  {
  }

  lemma StepStaged(s: State, step: Step)
    requires Inv(s) && Enabled(s, step)
    ensures Staged(Next(s, step))
  {
    hide Accounted, Permits, Guarded, Logged, Ordered, Received;
    if OfCall(step) {
      hide Staged;
      SameServiceStaged(s, Next(s, step));
    } else {
      ServiceStepStaged(s, step);
    }
  }

  lemma ServiceStepStaged(s: State, step: Step)
    requires Staged(s) && Enabled(s, step) && !OfCall(step)
    ensures Staged(Next(s, step))
  {
  }

  lemma SameServiceStaged(s: State, t: State)
    requires Staged(s) && t.service == s.service && |t.paths| == |s.paths|
    requires forall c :: 0 <= c < |s.paths| ==>
               t.paths[c].retired == s.paths[c].retired && t.paths[c].acquired == s.paths[c].acquired
    ensures Staged(t)
  {
  }

  lemma StepLogged(s: State, step: Step)
    requires Inv(s) && Enabled(s, step)
    ensures Logged(Next(s, step))
  {
    hide Accounted, Permits, Staged, Ordered, Received, Guarded;
    if step.Send? {
      SendIsLogged(s, step.task);
    } else if OfCall(step) {
      CallStepLogged(s, step);
    } else {
      ServiceStepLogged(s, step);
    }
  }

  lemma CallStepLogged(s: State, step: Step)
    requires Logged(s) && Enabled(s, step) && OfCall(step) && !step.Send?
    ensures Logged(Next(s, step))
  {
    hide Logged;
    SameLogLogged(s, Next(s, step));
  }

  /** No event is added and no call has become `Sent`. */
  lemma SameLogLogged(s: State, t: State)
    requires Logged(s) && t.log == s.log && t.service == s.service && |t.paths| == |s.paths| && |t.calls| >= |s.calls|
    requires forall c :: 0 <= c < |s.paths| ==> t.paths[c].retired == s.paths[c].retired
    requires forall k :: 0 <= k < |s.calls| && s.calls[k].phase == Sent ==> t.calls[k] == s.calls[k]
    requires forall k :: 0 <= k < |t.calls| && t.calls[k].phase == Sent ==> k < |s.calls| && s.calls[k] == t.calls[k]
    ensures Logged(t)
  {
  }

  lemma ServiceStepLogged(s: State, step: Step)
    requires Logged(s) && Staged(s) && Enabled(s, step) && !OfCall(step)
    ensures Logged(Next(s, step))
  {
    if step.RetireAnnounce? {
      AnnounceIsLogged(s);
    }
  }

  lemma AnnounceIsLogged(s: State)
    requires Logged(s) && Staged(s) && Enabled(s, RetireAnnounce)
    ensures Logged(Next(s, RetireAnnounce))
  {
    var e := ConnectionLost(Newest(s));
    var next := Next(s, RetireAnnounce);
    assert forall d :: d in next.log <==> d in s.log || d == e;
  }

  lemma SendIsLogged(s: State, t: TaskId)
    requires Logged(s) && In(s, t, Cleared)
    ensures Logged(Next(s, Send(t)))
  {
    var e := Request(s.calls[t].connection, t);
    assert e !in s.log;
    var next := Next(s, Send(t));
    assert forall d :: d in next.log <==> d in s.log || d == e;
    assert forall c :: 0 <= c < |s.paths| ==> next.paths[c].retired == s.paths[c].retired;
  }

  /** The event a step puts on the channel, if any, keeps the order. */
  lemma StepOrdered(s: State, step: Step)
    requires Inv(s) && Enabled(s, step)
    ensures Ordered(Next(s, step).log)
  {
    hide Accounted, Permits, Received;
    var log := Next(s, step).log;
    if log != s.log {
      var e := log[|s.log|];
      assert log == s.log + [e];
      forall i | 0 <= i < |s.log|
        ensures s.log[i] in s.log
      {
      }
    }
  }

  lemma StepReceived(s: State, step: Step)
    requires Inv(s) && Enabled(s, step)
    ensures Received(Next(s, step))
  {
    hide Accounted, Permits, Guarded, Staged, Logged, Ordered, Moved, Held;
    if OfCall(step) { CallsAddOneEvent(s, step); }
  }

  lemma CallsAddOneEvent(s: State, step: Step)
    requires Enabled(s, step) && OfCall(step)
    ensures var next := Next(s, step);
      if step.Send? then
        var e := Request(s.calls[step.task].connection, step.task);
        next.queue == s.queue + [e] && next.log == s.log + [e]
      else next.queue == s.queue && next.log == s.log
  {
  }

  lemma StepKeeps(s: State, step: Step)
    requires Inv(s) && Enabled(s, step)
    ensures Inv(Next(s, step))
  {
    StepAccounted(s, step);
    StepGuarded(s, step);
    StepStaged(s, step);
    StepLogged(s, step);
    StepOrdered(s, step);
    StepReceived(s, step);
  }

  lemma {:induction false} RunKeeps(s: State, steps: seq<Step>)
    requires Inv(s)
    ensures Inv(Run(s, steps))
  {
    hide Inv, Enabled, Next;
    if steps != [] {
      RunKeeps(s, steps[..|steps| - 1]);
      var before := Run(s, steps[..|steps| - 1]);
      if Enabled(before, steps[|steps| - 1]) { StepKeeps(before, steps[|steps| - 1]); }
    }
  }

  lemma ReachedKeeps(steps: seq<Step>)
    ensures Inv(Run(INITIAL, steps))
  {
    RunKeeps(INITIAL, steps);
  }

  /** In every interleaving, `ConnectionLost` is the last event of its connection, and of the connections that
      have owned the name it separates the older ones, all of whose events come before, from the newer ones,
      all of whose events come after. */
  lemma EventsAreOrdered(steps: seq<Step>, i: nat, j: nat)
    requires i < j < |Run(INITIAL, steps).log|
    ensures var s := Run(INITIAL, steps); var before, after := s.log[i], s.log[j];
      && (before.ConnectionLost? && !after.ServiceFailed? ==>
            && after.connection < |s.paths| && after.connection != before.connection
            && (s.paths[after.connection].acquired ==> after.connection > before.connection))
      && (after.ConnectionLost? && !before.ServiceFailed? ==> before.connection <= after.connection)
  {
    hide Run, Accounted, Guarded, Received;
    ReachedKeeps(steps);
    var s := Run(INITIAL, steps);
    var before, after := s.log[i], s.log[j];
    if before.ConnectionLost? && !after.ServiceFailed? {
      assert after in s.log && before in s.log;
      if s.paths[after.connection].acquired && after.connection < before.connection {
        OlderHasAnnounced(s, i, j);
      }
    }
  }

  /** An older connection that has owned the name announced its loss after its other events, so none of
      them is left for after the loss of a newer one. */
  lemma OlderHasAnnounced(s: State, i: nat, j: nat)
    requires Staged(s) && Logged(s) && Ordered(s.log) && i < j < |s.log|
    requires s.log[i].ConnectionLost? && !s.log[j].ServiceFailed? && s.log[j].connection < |s.paths|
    requires s.paths[s.log[j].connection].acquired
    ensures s.log[j].connection >= s.log[i].connection
  {
    assert s.log[i] in s.log;
    OlderIsLogged(s, s.log[j].connection, s.log[i].connection);
  }

  lemma OlderIsLogged(s: State, older: ConnectionId, newer: ConnectionId)
    requires Staged(s) && Logged(s)
    ensures older < newer < |s.paths| && s.paths[older].acquired ==> ConnectionLost(older) in s.log
  {
  }

  lemma RunOneMore(s: State, steps: seq<Step>, step: Step)
    ensures var before := Run(s, steps);
      Run(s, steps + [step]) == if Enabled(before, step) then Next(before, step) else before
  {
    assert (steps + [step])[..|steps|] == steps;
  }

  /** An attempt that never owned the name announces nothing, so a call on it may still speak after the loss
      of a connection made later. */
  lemma UnownedConnectionMaySpeakLate()
    ensures exists steps: seq<Step> ::
      var s := Run(INITIAL, steps);
      s.log == [ConnectionLost(1), Request(0, 0)] && |s.paths| == 2 && !s.paths[0].acquired
  {
    hide Run;
    var steps := LoseSecond();
    var s := Run(INITIAL, steps);
    steps := CallOnFirst(steps, s);
  }

  /** A whole call on connection 0, which nobody holds or has retired. */
  lemma CallOnFirst(steps: seq<Step>, s: State) returns (longer: seq<Step>)
    requires s == Run(INITIAL, steps) && s.calls == [] && s.free > 0 && s.open
    requires |s.paths| > 0 && s.paths[0].holder.None? && !s.paths[0].retired
    ensures Run(INITIAL, longer).log == s.log + [Request(0, 0)] && Run(INITIAL, longer).paths == s.paths
  {
    hide Run, Enabled, Next;
    var holding := s.paths[0 := s.paths[0].(holder := Some(0))];
    var s1 := s.(calls := [Call(0, Reserving)]);
    var s2 := s1.(calls := [Call(0, Permitted)], free := s.free - 1);
    var s3 := s2.(calls := [Call(0, Locked)], paths := holding);
    var s4 := s3.(calls := [Call(0, Cleared)]);
    CallStarts(s, s1, s2);
    CallEnters(s2, s3, s4);
    CallSends(s4, s.paths[0]);
    assert holding[0 := s.paths[0]] == s.paths;
    RunOneMore(INITIAL, steps, Arrive(0));
    longer := steps + [Arrive(0)];
    RunOneMore(INITIAL, longer, Reserve(0));
    longer := longer + [Reserve(0)];
    RunOneMore(INITIAL, longer, Lock(0));
    longer := longer + [Lock(0)];
    RunOneMore(INITIAL, longer, Check(0));
    longer := longer + [Check(0)];
    RunOneMore(INITIAL, longer, Send(0));
    longer := longer + [Send(0)];
  }

  lemma CallStarts(s: State, s1: State, s2: State)
    requires s.calls == [] && s.free > 0 && s.open && |s.paths| > 0
    requires s1 == s.(calls := [Call(0, Reserving)])
    requires s2 == s1.(calls := [Call(0, Permitted)], free := s.free - 1)
    ensures Enabled(s, Arrive(0)) && Next(s, Arrive(0)) == s1
    ensures Enabled(s1, Reserve(0)) && Next(s1, Reserve(0)) == s2
  {
    assert [Call(0, Reserving)][0 := Call(0, Permitted)] == [Call(0, Permitted)];
  }

  lemma CallEnters(s: State, s1: State, s2: State)
    requires s.calls == [Call(0, Permitted)] && |s.paths| > 0 && s.paths[0].holder.None? && !s.paths[0].retired
    requires s1 == s.(calls := [Call(0, Locked)], paths := s.paths[0 := s.paths[0].(holder := Some(0))])
    requires s2 == s1.(calls := [Call(0, Cleared)])
    ensures Enabled(s, Lock(0)) && Next(s, Lock(0)) == s1
    ensures Enabled(s1, Check(0)) && Next(s1, Check(0)) == s2
  {
    assert [Call(0, Permitted)][0 := Call(0, Locked)] == [Call(0, Locked)];
    assert [Call(0, Locked)][0 := Call(0, Cleared)] == [Call(0, Cleared)];
  }

  lemma CallSends(s: State, path: Path)
    requires s.calls == [Call(0, Cleared)] && |s.paths| > 0 && s.paths[0] == path.(holder := Some(0)) && path.holder.None?
    ensures Enabled(s, Send(0))
    ensures Next(s, Send(0)).log == s.log + [Request(0, 0)] && Next(s, Send(0)).paths == s.paths[0 := path]
  {
  }

  /** A first attempt fails; a second owns the name, is lost and says so. */
  lemma LoseSecond() returns (steps: seq<Step>)
    ensures Run(INITIAL, steps)
         == State([Path(false, None, false), Path(true, None, true)], [], Connecting, EVENT_CAPACITY - 1,
                  [ConnectionLost(1)], [ConnectionLost(1)], true)
  {
    hide Run, Enabled, Next;
    steps := [];
    Start();
    var failed := INITIAL.(paths := [Path(false, None, false)]);
    AttemptFails(INITIAL, failed);
    RunTwoMore(steps, Dial, DialFails, failed);
    steps := steps + [Dial] + [DialFails];
    var owner := Path(false, None, true);
    var serving := failed.(service := Serving, paths := failed.paths + [owner]);
    AttemptSucceeds(failed, serving);
    RunTwoMore(steps, Dial, Acquire, serving);
    steps := steps + [Dial] + [Acquire];
    var flagging := serving.(service := Flagging, free := EVENT_CAPACITY - 1);
    LossIsNoticed(serving, flagging);
    RunTwoMore(steps, Lose, RetireReserve, flagging);
    steps := steps + [Lose] + [RetireReserve];
    var done := flagging.(service := Connecting, paths := failed.paths + [owner.(retired := true)],
                          queue := [ConnectionLost(1)], log := [ConnectionLost(1)]);
    LossIsSaid(flagging, done);
    RunTwoMore(steps, RetireFlag, RetireAnnounce, done);
    steps := steps + [RetireFlag] + [RetireAnnounce];
  }

  lemma Start()
    ensures Run(INITIAL, []) == INITIAL
  {
  }

  ghost predicate Leads(s: State, first: Step, second: Step, t: State) {
    Enabled(s, first) && Enabled(Next(s, first), second) && Next(Next(s, first), second) == t
  }

  lemma RunTwoMore(steps: seq<Step>, first: Step, second: Step, t: State)
    requires Leads(Run(INITIAL, steps), first, second, t)
    ensures Run(INITIAL, steps + [first] + [second]) == t
  {
    hide Run, Enabled, Next;
    RunOneMore(INITIAL, steps, first);
    RunOneMore(INITIAL, steps + [first], second);
  }

  lemma AttemptFails(s: State, t: State)
    requires s.service == Connecting && t == s.(paths := s.paths + [Path(false, None, false)])
    ensures Leads(s, Dial, DialFails, t)
  {
  }

  lemma AttemptSucceeds(s: State, t: State)
    requires s.service == Connecting && t == s.(service := Serving, paths := s.paths + [Path(false, None, true)])
    ensures Leads(s, Dial, Acquire, t)
  {
    assert t.paths == (s.paths + [Path(false, None, false)])[|s.paths| := Path(false, None, true)];
  }

  lemma LossIsNoticed(s: State, t: State)
    requires s.service == Serving && s.open && s.free > 0 && t == s.(service := Flagging, free := s.free - 1)
    ensures Leads(s, Lose, RetireReserve, t)
  {
  }

  lemma LossIsSaid(s: State, t: State)
    requires s.service == Flagging && |s.paths| == 2 && s.paths[1] == Path(false, None, true) && s.queue == s.log == []
    requires t == s.(service := Connecting, paths := [s.paths[0], Path(true, None, true)],
                     queue := [ConnectionLost(1)], log := [ConnectionLost(1)])
    ensures Leads(s, RetireFlag, RetireAnnounce, t)
  {
    assert t.paths == s.paths[1 := Path(true, None, true)];
  }

  /** Of the connections that another attempt followed, exactly those that had owned the name have
      announced their loss; the newest has when the service loop, still alive, is between attempts. */
  lemma LossIsAnnounced(steps: seq<Step>, c: ConnectionId)
    requires c < |Run(INITIAL, steps).paths|
    ensures var s := Run(INITIAL, steps);
      && (c < Newest(s) ==> (ConnectionLost(c) in s.log <==> s.paths[c].acquired))
      && (c == Newest(s) && s.service != Ended ==>
            (ConnectionLost(c) in s.log <==> s.paths[c].acquired && s.service == Connecting))
  {
    hide Run, Accounted, Guarded, Ordered, Received;
    ReachedKeeps(steps);
  }

  /** A call has put its event on the channel, once, exactly when it reports success. */
  lemma SentExactlyOnce(steps: seq<Step>, t: TaskId)
    requires t < |Run(INITIAL, steps).calls|
    ensures var s := Run(INITIAL, steps); var e := Request(s.calls[t].connection, t);
      && (s.calls[t].phase == Sent <==> e in s.log)
      && forall i, j :: 0 <= i < j < |s.log| && s.log[i] == e ==> s.log[j] != e
  {
    hide Run, Accounted, Guarded, Staged, Ordered, Received;
    ReachedKeeps(steps);
  }

  /** What waits on the channel is the last part of what was sent, and never more than its capacity. */
  lemma QueueIsBoundedSuffix(steps: seq<Step>)
    ensures var s := Run(INITIAL, steps);
      |s.queue| <= EVENT_CAPACITY && |s.queue| <= |s.log| && s.queue == s.log[|s.log| - |s.queue|..]
  {
    hide Run, Guarded, Staged, Logged, Ordered;
    ReachedKeeps(steps);
  }

  /** No call ever finds the channel full once it holds a permit: a call past its checks can always send. */
  lemma PermitsAreNeverShort(steps: seq<Step>)
    ensures var s := Run(INITIAL, steps);
      |s.queue| + Permits(s.calls) + ServicePermits(s.service) <= EVENT_CAPACITY
  {
    hide Run, Guarded, Staged, Logged, Ordered, Received;
    ReachedKeeps(steps);
  }

  // ----- progress of a call

  function PhaseWork(phase: Phase): nat {
    match phase
    case Reserving => 4
    case Permitted => 3
    case Locked => 2
    case Cleared => 1
    case Sent => 0
    case Refused => 0
  }

  /** How many steps the calls have left at most. */
  function Work(calls: seq<Call>): nat {
    if calls == [] then 0 else Work(calls[..|calls| - 1]) + PhaseWork(calls[|calls| - 1].phase)
  }

  lemma {:induction false} WorkMoves(calls: seq<Call>, t: TaskId, phase: Phase)
    requires t < |calls|
    ensures Work(calls[t := calls[t].(phase := phase)]) == Work(calls) - PhaseWork(calls[t].phase) + PhaseWork(phase)
  {
    var last, moved := |calls| - 1, calls[t := calls[t].(phase := phase)];
    if t == last {
      assert moved[..last] == calls[..last];
    } else {
      assert moved[..last] == calls[..last][t := calls[..last][t].(phase := phase)];
      WorkMoves(calls[..last], t, phase);
    }
  }

  /** Every step of a call that has arrived brings it nearer to its end; no other step puts one back. */
  lemma CallStepsEnd(s: State, step: Step)
    requires Enabled(s, step) && !step.Arrive?
    ensures if OfCall(step) then Work(Next(s, step).calls) < Work(s.calls) else Next(s, step).calls == s.calls
  {
    hide Work;
    match step
    case Reserve(t) => WorkMoves(s.calls, t, if s.open then Permitted else Refused);
    case Abort(t) => WorkMoves(s.calls, t, Refused);
    case Lock(t) => WorkMoves(s.calls, t, Locked);
    case Check(t) => WorkMoves(s.calls, t, if s.paths[s.calls[t].connection].retired then Refused else Cleared);
    case Send(t) => WorkMoves(s.calls, t, Sent);
    case _ =>
  }

  /** A call that holds a permit is never stuck: it can go on, or the call whose lock it waits for can. One that waits
      for a permit can go on as soon as there is one, or the daemon is gone. */
  lemma CallsNeverStick(steps: seq<Step>, t: TaskId)
    requires t < |Run(INITIAL, steps).calls|
    ensures var s := Run(INITIAL, steps); var phase := s.calls[t].phase;
      && (phase in {Permitted, Locked, Cleared} ==> exists step :: OfCall(step) && !step.Arrive? && !step.Abort? && Enabled(s, step))
      && (phase == Reserving && (s.free > 0 || !s.open) ==> Enabled(s, Reserve(t)))
  {
    hide Run, Accounted, Staged, Logged, Ordered, Received;
    ReachedKeeps(steps);
    var s := Run(INITIAL, steps);
    if s.calls[t].phase in {Permitted, Locked, Cleared} { CallGoesOn(s, t); }
  }

  lemma CallGoesOn(s: State, t: TaskId)
    requires Guarded(s) && t < |s.calls| && s.calls[t].phase in {Permitted, Locked, Cleared}
    ensures exists step :: OfCall(step) && !step.Arrive? && !step.Abort? && Enabled(s, step)
  {
    var c := s.calls[t].connection;
    if s.calls[t].phase == Locked {
      assert Enabled(s, Check(t));
    } else if s.calls[t].phase == Cleared {
      assert Enabled(s, Send(t));
    } else if s.paths[c].holder.None? {
      assert Enabled(s, Lock(t));
    } else {
      var u := s.paths[c].holder.value;
      assert Enabled(s, Check(u)) || Enabled(s, Send(u));
    }
  }

  /** Refusals have a reason: the connection is retired, or the daemon is gone. */
  ghost predicate Justified(s: State) {
    forall t :: 0 <= t < |s.calls| && s.calls[t].phase == Refused ==>
      s.calls[t].connection < |s.paths| && (s.paths[s.calls[t].connection].retired || !s.open)
  }

  lemma StepJustifies(s: State, step: Step)
    requires Enabled(s, step) && !step.Abort? && Justified(s)
    ensures Justified(Next(s, step))
  {
  }

  /** No call is refused without need: unless the caller gives up, one that was refused found its connection retired
      or the daemon gone. */
  lemma {:induction false} RefusedOnlyIf(steps: seq<Step>, t: TaskId)
    requires t < |Run(INITIAL, steps).calls| && Run(INITIAL, steps).calls[t].phase == Refused
    requires forall step :: step in steps ==> !step.Abort?
    ensures var s := Run(INITIAL, steps);
      s.calls[t].connection < |s.paths| && (s.paths[s.calls[t].connection].retired || !s.open)
  {
    hide Run;
    RunJustifies(steps);
  }

  lemma {:induction false} RunJustifies(steps: seq<Step>)
    requires forall step :: step in steps ==> !step.Abort?
    ensures Justified(Run(INITIAL, steps))
  {
    hide Enabled, Next;
    if steps == [] {
      NothingRefused();
    } else {
      hide Justified;
      var front, step := steps[..|steps| - 1], steps[|steps| - 1];
      RunJustifies(front);
      if Enabled(Run(INITIAL, front), step) { StepJustifies(Run(INITIAL, front), step); }
    }
  }

  lemma NothingRefused()
    ensures Justified(INITIAL)
  {
  }

  // ----- the end of the service

  /** Nobody is waiting to say that another daemon owns the name, or it has been said, or nobody is there to hear it. */
  ghost predicate FailureTold(s: State) {
    s.service == Failing || ServiceFailed in s.log || !s.open
  }

  lemma StepTellsFailure(s: State, step: Step)
    requires Enabled(s, step) && FailureTold(s)
    ensures FailureTold(Next(s, step))
  {
    var log := Next(s, step).log;
    assert s.log <= log && forall e :: e in s.log ==> e in log by { LogGrows(s, step); }
  }

  lemma LogGrows(s: State, step: Step)
    requires Enabled(s, step)
    ensures s.log <= Next(s, step).log && forall e :: e in s.log ==> e in Next(s, step).log
    ensures step.Fail? && s.open ==> ServiceFailed in Next(s, step).log
  {
  }

  lemma {:induction false} RunTellsFailure(s: State, steps: seq<Step>)
    requires FailureTold(s)
    ensures FailureTold(Run(s, steps))
  {
    hide FailureTold, Next, Enabled;
    if steps != [] {
      var front, step := steps[..|steps| - 1], steps[|steps| - 1];
      RunTellsFailure(s, front);
      if Enabled(Run(s, front), step) { StepTellsFailure(Run(s, front), step); }
    }
  }

  /** Once another daemon is found to own the name, the service cannot do anything else before it has said so, unless
      the daemon is gone. */
  lemma FailureIsAnnounced(steps: seq<Step>, more: seq<Step>)
    requires Run(INITIAL, steps).service == Failing
    ensures var s := Run(Run(INITIAL, steps), more); s.service == Failing || ServiceFailed in s.log || !s.open
  {
    hide Run;
    RunTellsFailure(Run(INITIAL, steps), more);
  }

  ghost predicate FailureIsLast(s: State) {
    && (ServiceFailed in s.log ==> s.service == Ended)
    && (forall i, j :: 0 <= i < j < |s.log| && s.log[i] == ServiceFailed ==> s.log[j] != ServiceFailed)
  }

  lemma StepKeepsLast(s: State, step: Step)
    requires Enabled(s, step) && FailureIsLast(s)
    ensures FailureIsLast(Next(s, step))
  {
    var log := Next(s, step).log;
    OneEventAtMost(s, step);
    if log != s.log {
      var e := log[|s.log|];
      assert log == s.log + [e];
      assert forall i :: 0 <= i < |s.log| ==> s.log[i] in s.log;
      assert ServiceFailed in log ==> ServiceFailed in s.log || e == ServiceFailed;
    }
  }

  lemma OneEventAtMost(s: State, step: Step)
    requires Enabled(s, step)
    ensures var next := Next(s, step);
      && (next.log == s.log || (|next.log| == |s.log| + 1 && next.log[..|s.log|] == s.log))
      && (next.log != s.log && next.log[|s.log|] == ServiceFailed ==> s.service == Failing && next.service == Ended)
      && (s.service == Ended ==> next.service == Ended)
  {
  }

  /** The service says at most once that it failed, and has then ended. */
  lemma {:induction false} ServiceFailsOnce(steps: seq<Step>)
    ensures FailureIsLast(Run(INITIAL, steps))
  {
    if steps != [] {
      hide FailureIsLast, Next, Enabled;
      var front, step := steps[..|steps| - 1], steps[|steps| - 1];
      ServiceFailsOnce(front);
      if Enabled(Run(INITIAL, front), step) { StepKeepsLast(Run(INITIAL, front), step); }
    }
  }
}
