/** How the applet's properties are announced (src/adapters/applet.rs): sinks store a value and set a dirty
    flag under the lock, then leave one wake-up permit; one emitter takes the permit, then the dirty flags,
    then signals. The two sides are interleaved one field access at a time; the emitter can be replaced
    whenever it waits, as a reconnect does. */
module Publisher {
  import opened Wrappers

  datatype Property = Panel | Tooltip | Selection

  /** One call of the publication sink. */
  datatype Publication = PanelIs(html: string) | TooltipIs(html: string) | SelectionIs(page: nat, count: nat)

  function PropertyOf(p: Publication): Property {
    match p
    case PanelIs(_) => Panel
    case TooltipIs(_) => Tooltip
    case SelectionIs(_, _) => Selection
  }

  /** The fields behind the lock. */
  datatype Published = Published(panel: string, tooltip: string, page: nat, pageCount: nat, dirty: set<Property>)

  /** The exported properties one signal carries, or those signalled so far. */
  datatype Changed = Changed(panel: Option<string>, tooltip: Option<string>, page: Option<nat>, pageCount: Option<nat>)

  const NOTHING := Changed(None, None, None, None)

  /** How far a sink call that holds the lock has come. */
  datatype Stage = Entered | HalfWritten | Written | Flagged

  datatype Holder = Free | Sink(publication: Publication, stage: Stage) | Emitter

  /** The emitter: waiting, woken, holding the lock with some flags taken, or signalling. */
  datatype Phase =
    | Waiting | Woken
    | Taking(left: seq<Property>, taken: Changed)
    | Signalling(taken: Changed)

  datatype State = State(
    published: Published,
    holder: Holder,
    owed: nat,                  // sink calls that have released the lock and not yet notified
    permit: bool,               // the stored wake-up
    emitter: Phase,
    announced: Changed,         // last signalled values since this emitter started
    issued: set<Publication>,   // every sink call so far
    stored: set<Property>)      // properties this emitter has to announce: flagged when it started, or published since

  const INITIAL := State(Published("", "", 0, 1, {}), Free, 0, false, Waiting, NOTHING, {}, {})

  datatype Step =
    | Publish(publication: Publication) | Advance | Notify
    | Wake | Enter | Take | Leave | Signal
    | Replace

  predicate Enabled(s: State, step: Step) {
    match step
    case Publish(_) => s.holder.Free?
    case Advance => s.holder.Sink?
    case Notify => s.owed > 0
    case Wake => s.emitter.Waiting? && s.permit
    case Enter => s.emitter.Woken? && s.holder.Free?
    case Take => s.emitter.Taking? && s.emitter.left != []
    case Leave => s.emitter.Taking? && s.emitter.left == []
    case Signal => s.emitter.Signalling?
    case Replace => s.emitter.Waiting? || s.emitter.Signalling?
  }

  /** The next field access of a sink call that holds the lock. */
  function Advanced(s: State): State
    requires s.holder.Sink?
  {
    var p := s.holder.publication;
    match s.holder.stage
    case Entered =>
      (match p
       case PanelIs(html) => s.(published := s.published.(panel := html), holder := Sink(p, Written))
       case TooltipIs(html) => s.(published := s.published.(tooltip := html), holder := Sink(p, Written))
       case SelectionIs(page, _) => s.(published := s.published.(page := page), holder := Sink(p, HalfWritten)))
    case HalfWritten =>
      (if p.SelectionIs? then s.(published := s.published.(pageCount := p.count), holder := Sink(p, Written)) else s)
    case Written =>
      s.(published := s.published.(dirty := s.published.dirty + {PropertyOf(p)}), holder := Sink(p, Flagged))
    case Flagged =>
      s.(holder := Free, owed := s.owed + 1)
  }

  /** What a signal carries of a property whose flag was set. */
  function With(taken: Changed, published: Published, p: Property): Changed {
    match p
    case Panel => taken.(panel := Some(published.panel))
    case Tooltip => taken.(tooltip := Some(published.tooltip))
    case Selection => taken.(page := Some(published.page), pageCount := Some(published.pageCount))
  }

  function Or<T>(a: Option<T>, b: Option<T>): Option<T> {
    if a.Some? then a else b
  }

  function Overlay(newer: Changed, older: Changed): Changed {
    Changed(Or(newer.panel, older.panel), Or(newer.tooltip, older.tooltip),
            Or(newer.page, older.page), Or(newer.pageCount, older.pageCount))
  }

  /** What a new emitter finds to announce: set flags, and the one a sink is about to set. */
  function Unsaid(s: State): set<Property> {
    s.published.dirty + if s.holder.Sink? then {PropertyOf(s.holder.publication)} else {}
  }

  function Next(s: State, step: Step): State
    requires Enabled(s, step)
  {
    match step
    case Publish(p) =>
      s.(holder := Sink(p, Entered), issued := s.issued + {p}, stored := s.stored + {PropertyOf(p)})
    case Advance => Advanced(s)
    case Notify => s.(permit := true, owed := s.owed - 1)
    case Wake => s.(permit := false, emitter := Woken)
    case Enter => s.(holder := Emitter, emitter := Taking([Panel, Tooltip, Selection], NOTHING))
    case Take =>
      var p := s.emitter.left[0];
      var taken := if p in s.published.dirty then With(s.emitter.taken, s.published, p) else s.emitter.taken;
      s.(published := s.published.(dirty := s.published.dirty - {p}), emitter := Taking(s.emitter.left[1..], taken))
    case Leave =>
      s.(holder := Free, emitter := if s.emitter.taken == NOTHING then Waiting else Signalling(s.emitter.taken))
    case Signal => s.(announced := Overlay(s.emitter.taken, s.announced), emitter := Waiting)
    case Replace => s.(emitter := Waiting, announced := NOTHING, stored := Unsaid(s))
  }

  function Run(s: State, steps: seq<Step>): State {
    if steps == [] then s
    else
      var before := Run(s, steps[..|steps| - 1]);
      var step := steps[|steps| - 1];
      if Enabled(before, step) then Next(before, step) else before
  }

  // ----- what every run keeps

  /** `c` carries the value that `p` has now. */
  predicate Carries(c: Changed, published: Published, p: Property) {
    match p
    case Panel => c.panel == Some(published.panel)
    case Tooltip => c.tooltip == Some(published.tooltip)
    case Selection => c.page == Some(published.page) && c.pageCount == Some(published.pageCount)
  }

  /** `c` carries some value for `p`. */
  predicate Mentions(c: Changed, p: Property) {
    match p
    case Panel => c.panel.Some?
    case Tooltip => c.tooltip.Some?
    case Selection => c.page.Some? || c.pageCount.Some?
  }

  /** `p` is being stored and not yet flagged. */
  predicate Storing(s: State, p: Property) {
    s.holder.Sink? && PropertyOf(s.holder.publication) == p && !s.holder.stage.Flagged?
  }

  function InFlight(s: State): Changed {
    if s.emitter.Taking? || s.emitter.Signalling? then s.emitter.taken else NOTHING
  }

  /** The emitter has a set flag of `p` still ahead of it. */
  predicate Coming(s: State, p: Property) {
    s.emitter.Woken? || (s.emitter.Taking? && p in s.emitter.left)
  }

  predicate WakeUpPending(s: State) {
    s.permit || s.owed > 0 || (s.holder.Sink? && s.holder.stage.Flagged?)
  }

  /** The current value of `p` has been announced, is about to be, or its flag is set. */
  ghost predicate NotLost(s: State, p: Property) {
    || p in s.published.dirty
    || Storing(s, p)
    || Carries(InFlight(s), s.published, p)
    || (!Mentions(InFlight(s), p) && Carries(s.announced, s.published, p))
  }

  ghost predicate FlagsAreSeen(s: State) {
    forall p :: p in s.published.dirty ==> Coming(s, p) || WakeUpPending(s)
  }

  ghost predicate NothingLost(s: State) {
    forall p :: p in s.stored ==> NotLost(s, p)
  }

  /** Page and page count of `c` were passed to the same call of `selection`. */
  predicate Paired(c: Changed, issued: set<Publication>) {
    (c.page.None? && c.pageCount.None?)
    || (c.page.Some? && c.pageCount.Some? && SelectionIs(c.page.value, c.pageCount.value) in issued)
  }

  /** Page and page count go together unless a sink is between the two. */
  ghost predicate SelectionIsWhole(s: State) {
    && (Selection in s.published.dirty && !Storing(s, Selection) ==>
          SelectionIs(s.published.page, s.published.pageCount) in s.issued)
    && (s.holder.Sink? ==> s.holder.publication in s.issued)
    && (s.holder.Sink? && s.holder.publication.SelectionIs? ==>
          && (s.holder.stage != Entered ==> s.published.page == s.holder.publication.page)
          && (s.holder.stage in {Written, Flagged} ==> s.published.pageCount == s.holder.publication.count))
    && (s.holder.Sink? && s.holder.stage.HalfWritten? ==> s.holder.publication.SelectionIs?)
  }

  ghost predicate SinkHasWritten(s: State) {
    s.holder.Sink? && s.holder.stage in {Written, Flagged} ==>
      match s.holder.publication
      case PanelIs(html) => s.published.panel == html
      case TooltipIs(html) => s.published.tooltip == html
      case SelectionIs(page, count) => s.published.page == page && s.published.pageCount == count
  }

  ghost predicate Inv(s: State) {
    && (s.holder.Emitter? <==> s.emitter.Taking?)
    && (s.holder.Sink? && s.holder.stage.Flagged? ==> PropertyOf(s.holder.publication) in s.published.dirty)
    && FlagsAreSeen(s) && NothingLost(s) && SelectionIsWhole(s) && SinkHasWritten(s)
    && Paired(InFlight(s), s.issued) && Paired(s.announced, s.issued)
  }

  lemma SinkStepKeeps(s: State, step: Step)
    requires Inv(s) && Enabled(s, step) && (step.Publish? || step.Advance? || step.Notify?)
    ensures Inv(Next(s, step))
  {
    if step.Advance? {
      AdvanceKeepsValues(s);
      AdvanceKeepsFlags(s);
    }
  }

  lemma AdvanceKeepsValues(s: State)
    requires Inv(s) && s.holder.Sink?
    ensures SelectionIsWhole(Advanced(s)) && SinkHasWritten(Advanced(s)) && NothingLost(Advanced(s))
  {
    hide FlagsAreSeen, Paired;
  }

  lemma AdvanceKeepsFlags(s: State)
    requires Inv(s) && s.holder.Sink?
    ensures FlagsAreSeen(Advanced(s))
  {
    hide NothingLost, SelectionIsWhole, SinkHasWritten, Paired;
  }

  lemma EmitterStepKeeps(s: State, step: Step)
    requires Inv(s) && Enabled(s, step) && !(step.Publish? || step.Advance? || step.Notify?)
    ensures Inv(Next(s, step))
  {
    if step.Take? {
      assert s.emitter.left == [s.emitter.left[0]] + s.emitter.left[1..];
    } else if step.Enter? {
      var all := [Panel, Tooltip, Selection];
      assert all[0] == Panel && all[1] == Tooltip && all[2] == Selection;
      forall p: Property
        ensures p in all
      {
        match p case Panel => case Tooltip => case Selection =>
      }
    }
  }

  lemma {:induction false} RunKeeps(s: State, steps: seq<Step>)
    requires Inv(s)
    ensures Inv(Run(s, steps))
  {
    hide Inv, Enabled, Next;
    if steps != [] {
      RunKeeps(s, steps[..|steps| - 1]);
      var before, step := Run(s, steps[..|steps| - 1]), steps[|steps| - 1];
      if Enabled(before, step) {
        if step.Publish? || step.Advance? || step.Notify? {
          SinkStepKeeps(before, step);
        } else {
          EmitterStepKeeps(before, step);
        }
      }
    }
  }

  // ----- results

  lemma ReachedKeeps(steps: seq<Step>)
    ensures Inv(Run(INITIAL, steps))
  {
    RunKeeps(INITIAL, steps);
  }

  /** No publication is lost: whatever was flagged when the emitter started or published since has been announced
      with its current value, is being announced, or is flagged with a wake-up stored, due or consumed. */
  lemma NoPublicationIsLost(steps: seq<Step>, p: Property)
    requires p in Run(INITIAL, steps).stored
    ensures var s := Run(INITIAL, steps);
      || Storing(s, p)
      || (p in s.published.dirty && (Coming(s, p) || WakeUpPending(s)))
      || Carries(Overlay(InFlight(s), s.announced), s.published, p)
  {
    hide Run;
    ReachedKeeps(steps);
  }

  /** Nothing is left to do but publish more or replace the emitter. */
  predicate Quiet(s: State) {
    forall step :: step in {Advance, Notify, Wake, Enter, Take, Leave, Signal} ==> !Enabled(s, step)
  }

  /** When nothing is left to do, the lock is free and every value last announced is the current one: the
      protocol neither deadlocks nor stops short. */
  lemma QuietMeansAnnounced(steps: seq<Step>, p: Property)
    requires Quiet(Run(INITIAL, steps)) && p in Run(INITIAL, steps).stored
    ensures var s := Run(INITIAL, steps); s.holder.Free? && Carries(s.announced, s.published, p)
  {
    hide Run;
    var s := Run(INITIAL, steps);
    ReachedKeeps(steps);
    assert !Enabled(s, Advance) && !Enabled(s, Notify) && !Enabled(s, Wake) && !Enabled(s, Enter);
    assert !Enabled(s, Take) && !Enabled(s, Leave) && !Enabled(s, Signal);
  }

  // ----- what a new emitter announces

  lemma RunSplits(s: State, steps: seq<Step>, step: Step, more: seq<Step>)
    requires Enabled(Run(s, steps), step)
    ensures Run(s, steps + [step] + more) == Run(Next(Run(s, steps), step), more)
  {
    hide Next, Enabled;
    var all := steps + [step] + more;
    if more == [] {
      assert all[..|all| - 1] == steps;
    } else {
      assert all[..|all| - 1] == steps + [step] + more[..|more| - 1];
      RunSplits(s, steps, step, more[..|more| - 1]);
    }
  }

  /** Steps of one emitter, with no new publication of `p`. */
  ghost predicate Undisturbed(steps: seq<Step>, p: Property) {
    forall step :: step in steps ==> !step.Replace? && (step.Publish? ==> PropertyOf(step.publication) != p)
  }

  /** Nothing says or is about to say anything of `p`. */
  ghost predicate Silent(s: State, p: Property) {
    p !in Unsaid(s) && !Mentions(InFlight(s), p) && !Mentions(s.announced, p)
  }

  lemma StepStaysSilent(s: State, step: Step, p: Property)
    requires Enabled(s, step) && Silent(s, p) && (step.Publish? ==> PropertyOf(step.publication) != p)
    ensures Silent(Next(s, step), p)
  {
  }

  lemma {:induction false} RunStaysSilent(s: State, steps: seq<Step>, p: Property)
    requires Silent(s, p) && Undisturbed(steps, p)
    ensures Silent(Run(s, steps), p)
  {
    hide Silent, Next, Enabled;
    if steps != [] {
      var before, step := Run(s, steps[..|steps| - 1]), steps[|steps| - 1];
      RunStaysSilent(s, steps[..|steps| - 1], p);
      if Enabled(before, step) { StepStaysSilent(before, step, p); }
    }
  }

  lemma {:induction false} StoredStays(s: State, steps: seq<Step>, p: Property)
    requires p in s.stored && Undisturbed(steps, p)
    ensures p in Run(s, steps).stored
  {
    if steps != [] { StoredStays(s, steps[..|steps| - 1], p); }
  }

  /** When an emitter is replaced, the next one announces, with its current value, exactly what is flagged or
      being stored at that moment; a signal under way, or one already sent, is not repeated. */
  lemma SurvivesReplacementIff(steps: seq<Step>, more: seq<Step>, p: Property)
    requires Enabled(Run(INITIAL, steps), Replace) && Undisturbed(more, p)
    requires Quiet(Run(Next(Run(INITIAL, steps), Replace), more))
    ensures var s := Run(INITIAL, steps); var end := Run(Next(s, Replace), more);
      && (Mentions(end.announced, p) <==> p in Unsaid(s))
      && (p in Unsaid(s) ==> Carries(end.announced, end.published, p))
  {
    hide Run, Quiet, Unsaid;
    var s := Run(INITIAL, steps);
    var renewed := Next(s, Replace);
    var end := Run(renewed, more);
    RunSplits(INITIAL, steps, Replace, more);
    if p in Unsaid(s) {
      StoredStays(renewed, more, p);
      QuietMeansAnnounced(steps + [Replace] + more, p);
    } else {
      assert Unsaid(renewed) == Unsaid(s) by { UnsaidStays(s, renewed); }
      RunStaysSilent(renewed, more, p);
    }
  }

  lemma UnsaidStays(s: State, t: State)
    requires s.published == t.published && s.holder == t.holder
    ensures Unsaid(s) == Unsaid(t)
  {
  }

  function SinkWork(holder: Holder): nat {
    if !holder.Sink? then 0
    else match holder.stage
      case Entered => 12
      case HalfWritten => 11
      case Written => 10
      case Flagged => 9
  }

  function EmitterWork(emitter: Phase): nat {
    match emitter
    case Waiting => 0
    case Woken => 6
    case Taking(left, _) => 2 + |left|
    case Signalling(_) => 1
  }

  /** Bounds how many steps are left when nothing more is published. */
  function Work(s: State): nat {
    SinkWork(s.holder) + 8 * s.owed + (if s.permit then 7 else 0) + EmitterWork(s.emitter)
  }

  /** Every step but a new publication or a new emitter brings quiet nearer: without those, a run soon ends
      in a quiet state. */
  lemma QuietIsReached(steps: seq<Step>, step: Step)
    requires Enabled(Run(INITIAL, steps), step) && !step.Publish? && !step.Replace?
    ensures Work(Next(Run(INITIAL, steps), step)) < Work(Run(INITIAL, steps))
  {
    hide Run;
    ReachedKeeps(steps);
  }

  /** Page and page count are always announced as one call of `selection` gave them. */
  lemma SelectionIsNeverTorn(steps: seq<Step>)
    ensures var s := Run(INITIAL, steps); Paired(InFlight(s), s.issued) && Paired(s.announced, s.issued)
  {
    hide Run;
    ReachedKeeps(steps);
  }
}
