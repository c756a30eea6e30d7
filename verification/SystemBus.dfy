/** The loop that serves the system bus (src/adapters/dbus.rs): one connection or one attempt at a time, at
    most two calls, and a retry whose delay doubles with every failure. What the loop waits for is a list of
    events; each carries the time at which the loop runs again. */
module SystemBus {
  import opened Arithmetic
  import opened Wrappers

  type Time = nat
  type Duration = nat
  type Generation = nat

  const MAX_CALLS: nat := 2
  const BACKOFF_MIN: Duration := 100_000_000
  const BACKOFF_MAX: Duration := 2_000_000_000

  datatype Event =
    | Request
    | Joined(call: nat, disconnected: bool)   // a call completes; it saw the connection fail or not
    | Crashed(call: nat)                      // a call ends without completing
    | Connected(ok: bool)
    | SignalsEnded
    | Wake
    | Shutdown                                // also stands for the request channel being closed

  datatype Happening = Happening(event: Event, at: Time)

  datatype Backoff = Backoff(delay: Duration, retryAt: Time) {
    predicate IsDue(now: Time) {
      now >= retryAt
    }

    function Failed(now: Time): Backoff {
      Backoff(Min(delay * 2, BACKOFF_MAX), now + delay)
    }

    function Connected(now: Time): Backoff {
      Backoff(BACKOFF_MIN, now)
    }
  }

  /** What a run leaves behind, for stating its history. */
  datatype Note = Attempted(at: Time) | Opened(generation: Generation) | Refused | Lost(generation: Generation)

  datatype State = State(
    running: bool,
    connection: Option<Generation>,
    generation: Generation,
    connecting: bool,
    calls: seq<Generation>,           // the connection each running call uses
    signals: Option<Generation>,      // the connection the signal task listens on
    reconnect: Backoff,
    readiness: Option<bool>,          // what the initial attempt reported
    failedAt: Time,                   // when a connection or an attempt last failed
    now: Time,
    notes: seq<Note>)

  function Initial(now: Time): State {
    State(true, None, 0, false, [], None, Backoff(BACKOFF_MIN, now), None, now, now, [])
  }

  function NextGeneration(g: Generation): Generation {
    if g == U64_MAX then 1 else g + 1
  }

  /** The top of the loop: an attempt starts when there is nothing else and its time has come. */
  function Begin(s: State): State {
    if s.connection.None? && !s.connecting && s.reconnect.IsDue(s.now)
    then s.(connecting := true, notes := s.notes + [Attempted(s.now)]) else s
  }

  /** What the loop can be woken by. */
  predicate Ready(s: State, e: Event) {
    match e
    case Request => |s.calls| < MAX_CALLS
    case Joined(call, _) => call < |s.calls|
    case Crashed(call) => call < |s.calls|
    case Connected(_) => s.connecting
    case SignalsEnded => s.signals.Some?
    case Wake => true
    case Shutdown => true
  }

  function Without(calls: seq<Generation>, call: nat): seq<Generation>
    requires call < |calls|
  {
    calls[..call] + calls[call + 1..]
  }

  function Drop(s: State): State {
    s.(connection := None, signals := None, reconnect := s.reconnect.Failed(s.now), failedAt := s.now,
       notes := if s.connection.Some? then s.notes + [Lost(s.connection.value)] else s.notes)
  }

  function Complete(s: State, connected: bool): State {
    if s.readiness.None? then s.(readiness := Some(connected)) else s
  }

  function React(s: State, e: Event): State
    requires Ready(s, e)
  {
    match e
    case Request => if s.connection.Some? then s.(calls := s.calls + [s.connection.value]) else s
    case Joined(call, disconnected) =>
      var s1 := s.(calls := Without(s.calls, call));
      if s.connection == Some(s.calls[call]) && disconnected then Drop(s1) else s1
    case Crashed(call) => s.(calls := Without(s.calls, call))
    case Connected(ok) =>
      var s1 := s.(connecting := false);
      var g := NextGeneration(s.generation);
      Complete(if ok
               then s1.(signals := Some(g), generation := g, connection := Some(g),
                        reconnect := s.reconnect.Connected(s.now), notes := s.notes + [Opened(g)])
               else s1.(reconnect := s.reconnect.Failed(s.now), failedAt := s.now, notes := s.notes + [Refused]), ok)
    case SignalsEnded => Drop(s)
    case Wake => s
    case Shutdown =>
      Complete(s.(running := false, connecting := false, signals := None, calls := []), false)
  }

  /** One turn of the loop; a happening the loop cannot be woken by is passed over. */
  function Turn(s: State, h: Happening): State {
    if !s.running || h.at < s.now then s
    else
      var s1 := Begin(s);
      if !Ready(s1, h.event) then s1
      else React(s1.(now := h.at), h.event)
  }

  function Run(start: Time, hs: seq<Happening>): State {
    if hs == [] then Initial(start) else Turn(Run(start, hs[..|hs| - 1]), hs[|hs| - 1])
  }

  // ----- the loop itself

  method ServeBus(start: Time, hs: seq<Happening>) returns (s: State)
    ensures s == Run(start, hs)
  {
    hide Turn, Run, Backoff.IsDue, Backoff.Failed, Backoff.Connected, NextGeneration;
    var connection: Option<Generation>, generation: nat, connecting := None, 0, false;
    var calls: seq<Generation>, signals: Option<Generation> := [], None;
    var reconnect, now, readiness, running := Backoff(BACKOFF_MIN, start), start, None, true;
    var failedAt := start;
    var notes: seq<Note> := [];
    RunNone(start);
    for i := 0 to |hs|
      invariant Run(start, hs[..i])
             == State(running, connection, generation, connecting, calls, signals, reconnect, readiness, failedAt, now, notes)
    {
      RunOneMore(start, hs, i);
      TurnIs(Run(start, hs[..i]), hs[i]);
      var h := hs[i];
      if running && h.at >= now {
        if connection.None? && !connecting && reconnect.IsDue(now) {
          connecting := true;
          notes := notes + [Attempted(now)];
        }
        match h.event {
          case Request =>
            if |calls| < MAX_CALLS {
              now := h.at;
              if connection.Some? {
                calls := calls + [connection.value];
              }
            }
          case Joined(call, disconnected) =>
            if call < |calls| {
              now := h.at;
              var completed := calls[call];
              calls := calls[..call] + calls[call + 1..];
              if connection == Some(completed) && disconnected {
                connection, signals := None, None;
                reconnect, failedAt := reconnect.Failed(now), now;
                notes := notes + [Lost(completed)];
              }
            }
          case Crashed(call) =>
            if call < |calls| {
              now := h.at;
              calls := calls[..call] + calls[call + 1..];
            }
          case Connected(ok) =>
            if connecting {
              now := h.at;
              connecting := false;
              if ok {
                generation := NextGeneration(generation);
                signals, connection := Some(generation), Some(generation);
                reconnect := reconnect.Connected(now);
                notes := notes + [Opened(generation)];
              } else {
                reconnect, failedAt := reconnect.Failed(now), now;
                notes := notes + [Refused];
              }
              if readiness.None? {
                readiness := Some(ok);
              }
            }
          case SignalsEnded =>
            if signals.Some? {
              now := h.at;
              if connection.Some? {
                notes := notes + [Lost(connection.value)];
              }
              connection, signals := None, None;
              reconnect, failedAt := reconnect.Failed(now), now;
            }
          case Wake =>
            now := h.at;
          case Shutdown =>
            now := h.at;
            running, connecting, signals, calls := false, false, None, [];
            if readiness.None? {
              readiness := Some(false);
            }
        }
      }
    }
    assert hs[..|hs|] == hs;
    s := State(running, connection, generation, connecting, calls, signals, reconnect, readiness, failedAt, now, notes);
  }

  lemma RunNone(start: Time)
    ensures Run(start, []) == Initial(start)
  {
  }

  lemma RunOneMore(start: Time, hs: seq<Happening>, i: nat)
    requires i < |hs|
    ensures hs[..0] == [] && Run(start, hs[..i + 1]) == Turn(Run(start, hs[..i]), hs[i])
  {
    assert hs[..i + 1][..i] == hs[..i];
  }

  lemma TurnIs(s: State, h: Happening)
    ensures Turn(s, h) ==
      if !s.running || h.at < s.now then s
      else if !Ready(Begin(s), h.event) then Begin(s)
      else React(Begin(s).(now := h.at), h.event)
  {
  }

  // ----- what every run keeps

  /** Failures since the last success. */
  function Streak(notes: seq<Note>): nat {
    if notes == [] then 0
    else match notes[|notes| - 1]
      case Opened(_) => 0
      case Attempted(_) => Streak(notes[..|notes| - 1])
      case _ => Streak(notes[..|notes| - 1]) + 1
  }

  function Openings(notes: seq<Note>): nat {
    if notes == [] then 0 else Openings(notes[..|notes| - 1]) + (if notes[|notes| - 1].Opened? then 1 else 0)
  }

  /** The delay after `k` failures in a row. */
  function Delay(k: nat): Duration {
    if k == 0 then BACKOFF_MIN else Min(Delay(k - 1) * 2, BACKOFF_MAX)
  }

  ghost predicate Tidy(s: State) {
    && !(s.connection.Some? && s.connecting)
    && |s.calls| <= MAX_CALLS
    && (s.running ==> s.signals == s.connection)
    && (s.connection.Some? ==> s.connection.value == s.generation)
    && (!s.running ==> !s.connecting && s.signals.None? && s.calls == [] && s.readiness.Some?)
  }

  ghost predicate Paced(s: State) {
    && s.reconnect.delay == Delay(Streak(s.notes))
    && s.reconnect.delay <= BACKOFF_MAX
    && s.failedAt <= s.now
    && s.reconnect.retryAt <= s.now + BACKOFF_MAX
    && (Streak(s.notes) > 0 ==> s.reconnect.retryAt == s.failedAt + Delay(Streak(s.notes) - 1))
    && (Streak(s.notes) == 0 ==> s.reconnect.retryAt <= s.now)
  }

  /** Every generation is opened once, in order, and lost at most once, while it is the current one. */
  ghost predicate Recorded(s: State) {
    && s.generation == Openings(s.notes)
    && (forall n :: n in s.notes && n.Lost? ==> 0 < n.generation <= s.generation && s.connection != Some(n.generation))
    && (forall i, j :: 0 <= i < j < |s.notes| && s.notes[i].Lost? ==> s.notes[i] != s.notes[j])
    && (forall i, j :: 0 <= i < j < |s.notes| && s.notes[i].Opened? && s.notes[j].Opened? ==>
          s.notes[i].generation < s.notes[j].generation)
    && (forall n :: n in s.notes && n.Opened? ==> 0 < n.generation <= s.generation)
    && (forall g :: 0 < g <= s.generation ==> Opened(g) in s.notes)
    && (forall g :: 0 < g <= s.generation ==> (s.connection != Some(g) <==> Lost(g) in s.notes))
  }

  lemma NoteCounts(notes: seq<Note>, n: Note)
    ensures Openings(notes + [n]) == Openings(notes) + (if n.Opened? then 1 else 0)
    ensures Streak(notes + [n]) == if n.Opened? then 0 else Streak(notes) + (if n.Attempted? then 0 else 1)
    ensures forall m :: m in notes + [n] <==> m in notes || m == n
  {
    assert (notes + [n])[..|notes|] == notes;
  }

  lemma BeginKeeps(s: State)
    requires s.running && Tidy(s) && Paced(s) && Recorded(s)
    ensures Tidy(Begin(s)) && Paced(Begin(s)) && Recorded(Begin(s)) && Begin(s).generation == s.generation
  {
    hide Openings, Streak;
    NoteCounts(s.notes, Attempted(s.now));
  }

  lemma ReactTidy(s: State, e: Event)
    requires s.running && Ready(s, e) && Tidy(s)
    ensures Tidy(React(s, e)) && React(s, e).generation <= s.generation + 1
  {
  }

  lemma ReactPaced(s: State, e: Event)
    requires s.running && Ready(s, e) && Tidy(s) && Paced(s)
    ensures Paced(React(s, e))
  {
    hide Streak;
    NoteCounts(s.notes, Refused);
    NoteCounts(s.notes, Opened(NextGeneration(s.generation)));
    if s.connection.Some? { NoteCounts(s.notes, Lost(s.connection.value)); }
  }

  lemma DropRecorded(s: State)
    requires Recorded(s) && s.connection == Some(s.generation) && s.generation > 0
    ensures Recorded(Drop(s))
  {
    hide Openings, Streak, Backoff.Failed;
    NoteCounts(s.notes, Lost(s.generation));
  }

  lemma OpenRecorded(s: State, next: State)
    requires Recorded(s) && s.connection.None? && s.generation < U64_MAX
    requires next.notes == s.notes + [Opened(s.generation + 1)] && next.generation == s.generation + 1
    requires next.connection == Some(s.generation + 1)
    ensures Recorded(next)
  {
    hide Openings;
    NoteCounts(s.notes, Opened(s.generation + 1));
  }

  lemma ReactRecorded(s: State, e: Event)
    requires s.running && Ready(s, e) && Tidy(s) && Recorded(s) && s.generation < U64_MAX
    requires s.connection.Some? ==> s.generation > 0
    ensures Recorded(React(s, e))
  {
    hide Recorded;
    var next := React(s, e);
    if e.Connected? && e.ok {
      OpenRecorded(s, next);
    } else if e.Connected? {
      RefusalRecorded(s, next);
    } else if next.connection == s.connection {
      RecordedSame(s, next);
    } else {
      RecordedSame(s, s.(calls := next.calls));
      DropRecorded(s.(calls := next.calls));
    }
  }

  lemma RefusalRecorded(s: State, next: State)
    requires Recorded(s) && next.notes == s.notes + [Refused]
    requires next.connection == s.connection && next.generation == s.generation
    ensures Recorded(next)
  {
    hide Openings;
    NoteCounts(s.notes, Refused);
  }

  lemma RecordedSame(s: State, t: State)
    requires Recorded(s) && t.notes == s.notes && t.connection == s.connection && t.generation == s.generation
    ensures Recorded(t)
  {
  }

  ghost predicate Inv(s: State) {
    Tidy(s) && Paced(s) && Recorded(s) && (s.connection.Some? ==> s.generation > 0)
  }

  lemma TurnKeeps(s: State, h: Happening)
    requires Inv(s) && s.generation < U64_MAX
    ensures Inv(Turn(s, h)) && Turn(s, h).generation <= s.generation + 1
  {
    hide Tidy, Paced, Recorded, React;
    if s.running && h.at >= s.now {
      BeginKeeps(s);
      var s1 := Begin(s);
      LaterKeeps(s1, h.at);
      if Ready(s1, h.event) {
        ReactTidy(s1.(now := h.at), h.event);
        ReactPaced(s1.(now := h.at), h.event);
        ReactRecorded(s1.(now := h.at), h.event);
        ReactOpens(s1.(now := h.at), h.event);
      }
    }
  }

  lemma ReactOpens(s: State, e: Event)
    requires Ready(s, e) && (s.connection.Some? ==> s.generation > 0)
    ensures React(s, e).connection.Some? ==> React(s, e).generation > 0
  {
  }

  lemma LaterKeeps(s: State, at: Time)
    requires s.running && s.now <= at && Tidy(s) && Paced(s) && Recorded(s)
    ensures var t := s.(now := at); Tidy(t) && Paced(t) && Recorded(t)
    ensures forall e :: Ready(s, e) == Ready(s.(now := at), e)
  {
  }

  lemma InitialKeeps(start: Time)
    ensures Inv(Initial(start))
  {
  }

  lemma {:induction false} RunKeeps(start: Time, hs: seq<Happening>)
    requires |hs| < U64_MAX
    ensures Inv(Run(start, hs)) && Run(start, hs).generation <= |hs|
  {
    hide Inv, Turn;
    if hs == [] {
      InitialKeeps(start);
    } else {
      RunKeeps(start, hs[..|hs| - 1]);
      TurnKeeps(Run(start, hs[..|hs| - 1]), hs[|hs| - 1]);
    }
  }

  // ----- results

  /** At every point the loop has a connection or an attempt, never both; it listens for signals exactly on
      the connection it has; and at most two calls run. */
  lemma OneConnectionOrAttempt(start: Time, hs: seq<Happening>)
    requires |hs| < U64_MAX
    ensures var s := Run(start, hs);
      && !(s.connection.Some? && s.connecting)
      && (s.running ==> s.signals == s.connection)
      && |s.calls| <= MAX_CALLS
  {
    hide Run;
    RunKeeps(start, hs);
  }

  /** A connection that was lost stays lost: a call that still uses it cannot take its successor down. */
  lemma OldCallsAreHarmless(start: Time, hs: seq<Happening>, call: nat, disconnected: bool, at: Time)
    requires |hs| < U64_MAX && call < |Run(start, hs).calls|
    requires Lost(Run(start, hs).calls[call]) in Run(start, hs).notes
    ensures Turn(Run(start, hs), Happening(Joined(call, disconnected), at)).connection == Run(start, hs).connection
  {
    hide Run;
    RunKeeps(start, hs);
  }

  /** Connections are numbered in the order they open; each is lost at most once, and is lost exactly when it
      has opened and is no longer the current one. */
  lemma EachConnectionIsLostOnce(start: Time, hs: seq<Happening>, g: Generation)
    requires |hs| < U64_MAX
    ensures var s := Run(start, hs);
      && (Opened(g) in s.notes <==> 0 < g <= Openings(s.notes))
      && (Lost(g) in s.notes ==> Opened(g) in s.notes)
      && (Opened(g) in s.notes ==> (Lost(g) in s.notes <==> s.connection != Some(g)))
      && forall i, j :: 0 <= i < j < |s.notes| && s.notes[i] == Lost(g) ==> s.notes[j] != Lost(g)
  {
    hide Run, Openings, Tidy, Paced;
    RunKeeps(start, hs);
  }

  lemma {:induction false} DelayDoubles(k: nat)
    ensures Delay(k) == Min(BACKOFF_MIN * Pow2(k), BACKOFF_MAX)
  {
    if k > 0 { DelayDoubles(k - 1); }
  }

  /** With nothing open and nothing under way, the next turn starts an attempt exactly when the delay for the
      failures in a row has passed since the last of them; that delay doubles up to two seconds. */
  lemma AttemptsAreSpaced(start: Time, hs: seq<Happening>)
    requires |hs| < U64_MAX
    requires var s := Run(start, hs); s.running && s.connection.None? && !s.connecting
    ensures var s := Run(start, hs); var k := Streak(s.notes);
      Begin(s).connecting <==>
        k == 0 || s.now >= s.failedAt + Min(BACKOFF_MIN * Pow2(k - 1), BACKOFF_MAX)
  {
    hide Run, Streak, Recorded;
    RunKeeps(start, hs);
    var k := Streak(Run(start, hs).notes);
    if k > 0 { DelayDoubles(k - 1); }
  }

  /** The initial attempt is reported once: what was reported never changes, and a loop that has ended has
      reported. */
  lemma {:induction false} ReadinessIsReportedOnce(start: Time, hs: seq<Happening>, n: nat)
    requires n <= |hs| && |hs| < U64_MAX
    ensures var s, earlier := Run(start, hs), Run(start, hs[..n]);
      && (earlier.readiness.Some? ==> s.readiness == earlier.readiness)
      && (!s.running ==> s.readiness.Some?)
  {
    hide Recorded, Paced;
    RunKeeps(start, hs);
    if n < |hs| {
      assert hs[..|hs| - 1][..n] == hs[..n];
      ReadinessIsReportedOnce(start, hs[..|hs| - 1], n);
      ReadinessStays(Run(start, hs[..|hs| - 1]), hs[|hs| - 1]);
    } else {
      assert hs[..n] == hs;
    }
  }

  lemma ReadinessStays(s: State, h: Happening)
    ensures s.readiness.Some? ==> Turn(s, h).readiness == s.readiness
  {
  }

  // ----- what ends and what opens a connection

  /** The loop takes the event: it runs, and the event is not from the past. */
  predicate Takes(s: State, h: Happening) {
    s.running && h.at >= s.now
  }

  /** The end of the signals of connection `g`, or the completion of a call on it that saw it fail. */
  predicate Fails(s: State, h: Happening, g: Generation) {
    && Takes(s, h) && s.connection == Some(g)
    && (h.event.SignalsEnded?
        || (h.event.Joined? && h.event.disconnected && h.event.call < |s.calls| && s.calls[h.event.call] == g))
  }

  lemma TurnOnConnection(s: State, h: Happening, g: Generation)
    requires Inv(s) && s.connection == Some(g)
    ensures var t := Turn(s, h);
      if Fails(s, h, g) then
        && t.connection.None? && t.signals.None? && t.notes == s.notes + [Lost(g)]
        && t.failedAt == h.at && t.reconnect.retryAt == h.at + s.reconnect.delay
        && t.running
      else t.connection == Some(g) && t.notes == s.notes && t.failedAt == s.failedAt && t.reconnect == s.reconnect
  {
    hide Paced, Recorded;
  }

  /** A turn loses the current connection exactly when it takes the end of its signals, or the completion of a
      call on that very connection which saw it fail. The connection is then noted as lost, nothing listens on
      it any more, and the next attempt waits from that time on; otherwise nothing of this happens. */
  lemma ConnectionIsLostIff(start: Time, hs: seq<Happening>, h: Happening, g: Generation)
    requires |hs| < U64_MAX && Run(start, hs).connection == Some(g)
    ensures var s, t := Run(start, hs), Run(start, hs + [h]);
      && (t.connection != Some(g) <==> Fails(s, h, g))
      && (Lost(g) in t.notes <==> Fails(s, h, g))
      && (Fails(s, h, g) ==>
            t.connection.None? && t.signals.None? && t.failedAt == h.at && t.reconnect.retryAt == h.at + s.reconnect.delay)
      && (!Fails(s, h, g) ==> t.failedAt == s.failedAt && t.reconnect == s.reconnect)
  {
    hide Turn, Run, Tidy, Paced, Openings;
    RunKeeps(start, hs);
    RunOneMore(start, hs + [h], |hs|);
    assert (hs + [h])[..|hs|] == hs && (hs + [h])[..|hs| + 1] == hs + [h];
    TurnOnConnection(Run(start, hs), h, g);
  }

  lemma TurnWithoutConnection(s: State, h: Happening)
    requires Inv(s) && s.connection.None? && s.generation < U64_MAX
    ensures Turn(s, h).connection.None? || Turn(s, h).connection == Some(s.generation + 1)
  {
    hide Paced, Recorded;
  }

  /** The attempt that is under way, or that this turn starts, succeeds. */
  predicate Opens(s: State, h: Happening) {
    Takes(s, h) && Begin(s).connecting && h.event == Connected(true)
  }

  /** A turn opens a connection, a new one, exactly when it takes the success of an attempt; what fails before
      that is noted. */
  lemma ConnectionOpensIff(start: Time, hs: seq<Happening>, h: Happening)
    requires |hs| < U64_MAX && Run(start, hs).connection.None?
    ensures var s, t := Run(start, hs), Run(start, hs + [h]);
      && (t.connection.Some? <==> Opens(s, h))
      && (Opens(s, h) ==>
            && t.connection == t.signals == Some(s.generation + 1) && !t.connecting
            && t.notes == Begin(s).notes + [Opened(s.generation + 1)] && Opened(s.generation + 1) !in s.notes)
      && (Takes(s, h) && Begin(s).connecting && h.event == Connected(false) ==>
            t.failedAt == h.at && !t.connecting && t.notes == Begin(s).notes + [Refused])
  {
    hide Run, Tidy, Paced, Openings;
    RunKeeps(start, hs);
    RunOneMore(start, hs + [h], |hs|);
    assert (hs + [h])[..|hs|] == hs && (hs + [h])[..|hs| + 1] == hs + [h];
  }

  /** A connection lasts until the first event that fails it, and never comes back. */
  lemma {:induction false} ConnectionLasts(start: Time, hs: seq<Happening>, n: nat, g: Generation)
    requires n <= |hs| < U64_MAX && Run(start, hs[..n]).connection == Some(g)
    ensures Run(start, hs).connection == Some(g) <==>
      forall k :: n <= k < |hs| ==> !Fails(Run(start, hs[..k]), hs[k], g)
    ensures g <= Run(start, hs).generation
  {
    hide Run, Turn, Paced, Recorded, Fails;
    RunKeeps(start, hs);
    if n == |hs| {
      assert hs[..n] == hs;
    } else {
      var front, h := hs[..|hs| - 1], hs[|hs| - 1];
      assert front[..n] == hs[..n];
      assert forall k :: n <= k < |front| ==> front[..k] == hs[..k] && front[k] == hs[k];
      RunKeeps(start, front);
      ConnectionLasts(start, front, n, g);
      RunOneMore(start, hs, |hs| - 1);
      assert hs[..|hs|] == hs;
      var s := Run(start, front);
      if s.connection == Some(g) {
        TurnOnConnection(s, h, g);
      } else if s.connection.Some? {
        TurnOnConnection(s, h, s.connection.value);
      } else {
        TurnWithoutConnection(s, h);
      }
      TurnKeeps(s, h);
      GenerationGrows(s, h);
    }
  }

  lemma GenerationGrows(s: State, h: Happening)
    requires s.generation < U64_MAX
    ensures s.generation <= Turn(s, h).generation
  {
  }

  // ----- requests and readiness

  /** A request is taken exactly while fewer than two calls run, and starts a call on the connection there is; without
      one it is answered at once. */
  lemma RequestStartsCall(start: Time, hs: seq<Happening>, at: Time)
    requires |hs| < U64_MAX && Takes(Run(start, hs), Happening(Request, at))
    ensures var s, t := Run(start, hs), Run(start, hs + [Happening(Request, at)]);
      && (|s.calls| < MAX_CALLS && s.connection.Some? ==> t.calls == s.calls + [s.connection.value])
      && (|s.calls| >= MAX_CALLS || s.connection.None? ==> t.calls == s.calls)
      && t.connection == s.connection && (t.now == at || |s.calls| >= MAX_CALLS)
  {
    hide Run;
    var h := Happening(Request, at);
    RunOneMore(start, hs + [h], |hs|);
    assert (hs + [h])[..|hs|] == hs && (hs + [h])[..|hs| + 1] == hs + [h];
  }

  /** How the first attempt that ended did end. */
  function FirstOutcome(notes: seq<Note>): Option<bool> {
    if notes == [] then None
    else if notes[0].Opened? then Some(true)
    else if notes[0].Refused? then Some(false)
    else FirstOutcome(notes[1..])
  }

  lemma {:induction false} FirstOutcomeMore(notes: seq<Note>, n: Note)
    ensures FirstOutcome(notes + [n]) ==
      if FirstOutcome(notes).Some? then FirstOutcome(notes)
      else if n.Opened? then Some(true) else if n.Refused? then Some(false) else None
  {
    if notes != [] {
      assert (notes + [n])[1..] == notes[1..] + [n];
      FirstOutcomeMore(notes[1..], n);
    } else {
      assert ([n])[1..] == [];
    }
  }

  ghost predicate Reported(s: State) {
    s.readiness == if s.running || FirstOutcome(s.notes).Some? then FirstOutcome(s.notes) else Some(false)
  }

  lemma TurnReports(s: State, h: Happening)
    requires Reported(s)
    ensures Reported(Turn(s, h))
  {
    hide FirstOutcome;
    FirstOutcomeMore(s.notes, Attempted(s.now));
    var notes := Begin(s).notes;
    FirstOutcomeMore(notes, Refused);
    FirstOutcomeMore(notes, Opened(NextGeneration(s.generation)));
    if s.connection.Some? { FirstOutcomeMore(notes, Lost(s.connection.value)); }
  }

  /** What is reported as readiness is how the first attempt ended: a success if it opened a connection, a failure
      if it was refused; and a failure as well if the loop was stopped before any attempt had ended. */
  lemma {:induction false} ReadinessIsFirstOutcome(start: Time, hs: seq<Happening>)
    ensures var s := Run(start, hs);
      s.readiness == if s.running || FirstOutcome(s.notes).Some? then FirstOutcome(s.notes) else Some(false)
  {
    hide Turn;
    if hs != [] {
      ReadinessIsFirstOutcome(start, hs[..|hs| - 1]);
      TurnReports(Run(start, hs[..|hs| - 1]), hs[|hs| - 1]);
    }
  }

  /** A call that ends, in whatever way, leaves the others running. */
  lemma CallEnds(start: Time, hs: seq<Happening>, call: nat, e: Event, at: Time)
    requires |hs| < U64_MAX && Takes(Run(start, hs), Happening(e, at)) && call < |Run(start, hs).calls|
    requires e == Crashed(call) || (e.Joined? && e.call == call)
    ensures var s, t := Run(start, hs), Run(start, hs + [Happening(e, at)]);
      && multiset(s.calls) == multiset(t.calls) + multiset{s.calls[call]}
      && forall i :: 0 <= i < |t.calls| ==> t.calls[i] == s.calls[if i < call then i else i + 1]
  {
    hide Run, Turn, Takes;
    var h := Happening(e, at);
    RunOneMore(start, hs + [h], |hs|);
    assert (hs + [h])[..|hs|] == hs && (hs + [h])[..|hs| + 1] == hs + [h];
    TurnEndsCall(Run(start, hs), h, call);
    WithoutIs(Run(start, hs).calls, call);
  }

  lemma TurnEndsCall(s: State, h: Happening, call: nat)
    requires Takes(s, h) && call < |s.calls| && (h.event == Crashed(call) || (h.event.Joined? && h.event.call == call))
    ensures Turn(s, h).calls == Without(s.calls, call)
  {
  }

  lemma WithoutIs(calls: seq<Generation>, call: nat)
    requires call < |calls|
    ensures var rest := Without(calls, call);
      && multiset(calls) == multiset(rest) + multiset{calls[call]}
      && forall i :: 0 <= i < |rest| ==> rest[i] == calls[if i < call then i else i + 1]
  {
    assert calls == calls[..call] + [calls[call]] + calls[call + 1..];
  }

  /** A loop that has ended has left nothing behind it: no call, no attempt, no listener. */
  lemma LoopEndsClean(start: Time, hs: seq<Happening>)
    requires |hs| < U64_MAX && !Run(start, hs).running
    ensures var s := Run(start, hs); s.calls == [] && !s.connecting && s.signals.None?
  {
    hide Run, Paced, Recorded;
    RunKeeps(start, hs);
  }
}
