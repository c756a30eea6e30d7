/** Publications: which surfaces each goes to, that the panel's acknowledgements match what it was sent, and that no
    publication number is used twice (src/scheduler/machine.rs and its publication submodule). */
module SchedulerSurfaces {
  import opened Wrappers
  import opened SchedulerPolicy
  import opened SchedulerModel
  import opened SchedulerSpec
  import opened SchedulerSteps
  import opened SchedulerInvariant
  import opened SchedulerDispatch
  import opened SchedulerRuns
  import opened SchedulerTiming
  import opened SchedulerClock
  import opened SchedulerPending

  predicate PanelReason(why: PublishReason) {
    why in {FirstPaintReady, FirstPaintTimeout, DisplayDeadline, ConfigReload}
  }

  predicate IsFirstPaint(a: SchedulerAction) {
    a.PublishDisplay? && a.why in {FirstPaintReady, FirstPaintTimeout}
  }

  /** A publication goes to the panel exactly when the panel's contents are due or were asked for, and to the
      tooltip exactly when that is shown and, for one that goes to the panel as well, in effect. */
  predicate Fits(a: SchedulerAction, v: View) {
    a.PublishDisplay? ==>
      && (a.panel <==> PanelReason(a.why))
      && (a.tooltip <==> v.presented && (PanelReason(a.why) ==> v.effectivePresented))
  }

  /** The publications the panel is sent. */
  function PanelIds(acts: seq<SchedulerAction>): set<PublicationId> {
    set a | a in acts && a.PublishDisplay? && a.panel :: a.publication
  }

  ghost predicate Numbered(acts: seq<SchedulerAction>, from: PublicationId, to: PublicationId) {
    && from <= to
    && (forall a :: a in acts && a.PublishDisplay? ==> from <= a.publication < to)
    && (forall i, j :: 0 <= i < j < |acts| && acts[i].PublishDisplay? && acts[j].PublishDisplay? ==>
          acts[i].publication != acts[j].publication)
  }

  ghost predicate PaintSaid(before: bool, after: bool, acts: seq<SchedulerAction>) {
    (before ==> after) && (after && !before <==> exists a :: a in acts && IsFirstPaint(a))
  }

  /** What a transition from `s` has published so far. */
  ghost predicate Sent(s: State, x: Step) {
    && Numbered(x.acts, s.feed.nextPublicationId, x.s.feed.nextPublicationId)
    && x.s.feed.panelPublications == s.feed.panelPublications + PanelIds(x.acts)
    && (forall a :: a in x.acts ==> Fits(a, x.s.view))
    && x.s.feed.notificationsArmed == s.feed.notificationsArmed
  }

  ghost predicate Aimed(s: State, x: Step) {
    Sent(s, x) && PaintSaid(s.paint.firstPaintIssued, x.s.paint.firstPaintIssued, x.acts)
  }

  /** The step publishes nothing and changes nothing that publications depend on. */
  ghost predicate Mute(x: Step, y: Step) {
    && y.s.feed == x.s.feed && y.s.paint.firstPaintIssued == x.s.paint.firstPaintIssued
    && y.s.view.presented == x.s.view.presented && y.s.view.effectivePresented == x.s.view.effectivePresented
    && exists tail :: y.acts == x.acts + tail && Unpublished(tail)
  }

  ghost predicate Unpublished(acts: seq<SchedulerAction>) {
    forall a :: a in acts ==> !a.PublishDisplay?
  }

  lemma TailKeepsNumbers(acts: seq<SchedulerAction>, tail: seq<SchedulerAction>, from: PublicationId, to: PublicationId)
    requires Numbered(acts, from, to) && Unpublished(tail)
    ensures Numbered(acts + tail, from, to)
  {
    var all := acts + tail;
    forall k | |acts| <= k < |all|
      ensures !all[k].PublishDisplay?
    {
      assert all[k] == tail[k - |acts|] && all[k] in tail;
    }
    assert forall k :: 0 <= k < |acts| ==> all[k] == acts[k];
  }

  lemma TailKeepsPanel(acts: seq<SchedulerAction>, tail: seq<SchedulerAction>)
    requires Unpublished(tail)
    ensures PanelIds(acts + tail) == PanelIds(acts)
  {
    assert forall a :: a in acts + tail && a.PublishDisplay? <==> a in acts && a.PublishDisplay?;
  }

  lemma MuteAims(s: State, x: Step, y: Step)
    requires Aimed(s, x) && Mute(x, y)
    ensures Aimed(s, y)
  {
    hide Numbered, PanelIds;
    var tail :| y.acts == x.acts + tail && Unpublished(tail);
    TailKeepsNumbers(x.acts, tail, s.feed.nextPublicationId, x.s.feed.nextPublicationId);
    TailKeepsPanel(x.acts, tail);
    forall a
      ensures a in y.acts && IsFirstPaint(a) <==> a in x.acts && IsFirstPaint(a)
    {
    }
  }

  lemma MuteChain(x: Step, y: Step, z: Step)
    requires Mute(x, y) && Mute(y, z)
    ensures Mute(x, z)
  {
    var a :| y.acts == x.acts + a && Unpublished(a);
    var b :| z.acts == y.acts + b && Unpublished(b);
    assert (x.acts + a) + b == x.acts + (a + b);
  }

  /** The step adds actions that publish nothing. */
  lemma MuteWith(x: Step, y: Step, tail: seq<SchedulerAction>)
    requires y.s.feed == x.s.feed && y.s.paint.firstPaintIssued == x.s.paint.firstPaintIssued
    requires y.s.view.presented == x.s.view.presented && y.s.view.effectivePresented == x.s.view.effectivePresented
    requires y.acts == x.acts + tail && Unpublished(tail)
    ensures Mute(x, y)
  {
  }

  lemma MuteFrame(x: Step, y: Step)
    requires y.s.feed == x.s.feed && y.s.paint.firstPaintIssued == x.s.paint.firstPaintIssued
    requires y.s.view.presented == x.s.view.presented && y.s.view.effectivePresented == x.s.view.effectivePresented
    requires y.acts == x.acts
    ensures Mute(x, y)
  {
    assert y.acts == x.acts + [];
    MuteWith(x, y, []);
  }

  lemma NothingAimed(s: State)
    ensures Aimed(s, Step(s, []))
  {
  }

  // ----- publishing

  /** The arguments of a publication agree with its reason. */
  predicate Reasoned(v: View, why: PublishReason, panel: bool, wantTooltip: bool) {
    (panel <==> PanelReason(why)) && (if panel then wantTooltip == v.effectivePresented else wantTooltip)
  }

  lemma AppendSends(s: State, x: Step, a: SchedulerAction, y: Step)
    requires Sent(s, x) && a.PublishDisplay? && a.publication == x.s.feed.nextPublicationId && Fits(a, x.s.view)
    requires y.acts == x.acts + [a] && y.s == x.s.(feed := y.s.feed)
    requires y.s.feed.nextPublicationId == a.publication + 1 && y.s.feed.notificationsArmed == x.s.feed.notificationsArmed
    requires y.s.feed.panelPublications == x.s.feed.panelPublications + if a.panel then {a.publication} else {}
    ensures Sent(s, y)
  {
    AppendNumbered(x.acts, a, s.feed.nextPublicationId);
    assert PanelIds(y.acts) == PanelIds(x.acts) + if a.panel then {a.publication} else {} by { AppendPanel(x.acts, a); }
    hide Numbered, PanelIds;
  }

  lemma AppendNumbered(acts: seq<SchedulerAction>, a: SchedulerAction, from: PublicationId)
    requires a.PublishDisplay? && Numbered(acts, from, a.publication)
    ensures Numbered(acts + [a], from, a.publication + 1)
  {
    var all := acts + [a];
    forall i, j | 0 <= i < j < |all| && all[i].PublishDisplay? && all[j].PublishDisplay?
      ensures all[i].publication != all[j].publication
    {
      assert all[i] == acts[i] && acts[i] in acts;
      if j < |acts| { assert all[j] == acts[j]; }
    }
  }

  lemma AppendPanel(acts: seq<SchedulerAction>, a: SchedulerAction)
    requires a.PublishDisplay?
    ensures PanelIds(acts + [a]) == PanelIds(acts) + if a.panel then {a.publication} else {}
  {
    assert forall b :: b in acts + [a] <==> b in acts || b == a;
  }

  lemma MergeNumbered(acts: seq<SchedulerAction>, i: nat, merged: SchedulerAction, from: PublicationId, to: PublicationId)
    requires Numbered(acts, from, to) && i < |acts| && acts[i].PublishDisplay? && merged.PublishDisplay?
    requires merged.publication == acts[i].publication
    ensures Numbered(acts[i := merged], from, to)
  {
    var all := acts[i := merged];
    forall a | a in all && a.PublishDisplay?
      ensures from <= a.publication < to
    {
      var k :| 0 <= k < |all| && all[k] == a;
      assert acts[k] in acts;
    }
  }

  lemma MergePanel(acts: seq<SchedulerAction>, i: nat, merged: SchedulerAction)
    requires i < |acts| && acts[i].PublishDisplay? && !acts[i].panel && merged.PublishDisplay? && merged.panel
    requires merged.publication == acts[i].publication
    ensures PanelIds(acts[i := merged]) == PanelIds(acts) + {merged.publication}
  {
    var all := acts[i := merged];
    forall a | a in acts && a.PublishDisplay? && a.panel
      ensures a in all
    {
      var k :| 0 <= k < |acts| && acts[k] == a;
      assert all[k] == a;
    }
    assert all[i] == merged && merged in all;
    forall a | a in all
      ensures a in acts || a == merged
    {
      var k :| 0 <= k < |all| && all[k] == a;
      assert k != i ==> acts[k] == a;
    }
  }

  /** The members of an updated list. */
  lemma MergeMembers(acts: seq<SchedulerAction>, i: nat, merged: SchedulerAction)
    requires i < |acts|
    ensures forall a :: a in acts[i := merged] ==> a in acts || a == merged
    ensures merged in acts[i := merged]
    ensures forall a :: a in acts && a != acts[i] ==> a in acts[i := merged]
  {
    var all := acts[i := merged];
    assert all[i] == merged;
    forall a | a in acts && a != acts[i]
      ensures a in all
    {
      var k :| 0 <= k < |acts| && acts[k] == a;
      assert all[k] == a;
    }
  }

  lemma MergeSends(s: State, x: Step, i: nat, merged: SchedulerAction, y: Step)
    requires Sent(s, x) && i < |x.acts| && IsTooltipRefresh(x.acts[i])
    requires merged.PublishDisplay? && merged.publication == x.acts[i].publication && merged.panel
    requires Fits(merged, x.s.view)
    requires y.acts == x.acts[i := merged] && y.s == x.s.(feed := y.s.feed)
    requires y.s.feed.nextPublicationId == x.s.feed.nextPublicationId && y.s.feed.notificationsArmed == x.s.feed.notificationsArmed
    requires y.s.feed.panelPublications == x.s.feed.panelPublications + {merged.publication}
    ensures Sent(s, y)
  {
    MergeNumbered(x.acts, i, merged, s.feed.nextPublicationId, x.s.feed.nextPublicationId);
    assert x.acts[i] in x.acts;
    MergePanel(x.acts, i, merged);
    MergeMembers(x.acts, i, merged);
    hide Numbered, PanelIds;
  }

  /** A publication with fitting arguments keeps all that, and whoever it is meant for is reached. */
  lemma PublishSends(s: State, x: Step, why: PublishReason, deadline: Option<Time>, skipped: nat, panel: bool, wantTooltip: bool)
    requires Sent(s, x) && Reasoned(x.s.view, why, panel, wantTooltip)
    ensures Sent(s, IssuePublish(x, why, deadline, skipped, panel, wantTooltip))
  {
    hide Sent, HasTooltipPublication, Fits;
    var tooltip := wantTooltip && x.s.view.presented;
    var i, y := FirstRefresh(x.acts), IssuePublish(x, why, deadline, skipped, panel, wantTooltip);
    if (!panel && !tooltip) || (why == TooltipRefresh && HasTooltipPublication(x.acts)) {
      assert y == x;
    } else if panel && tooltip && i < |x.acts| {
      var merged := x.acts[i].(why := why, displayDeadline := deadline, skipped := skipped, panel := true, tooltip := true);
      assert Fits(merged, x.s.view) by { FitsWhen(merged, x.s.view, wantTooltip); }
      MergeSends(s, x, i, merged, y);
    } else {
      var a := PublishDisplay(x.s.feed.nextPublicationId, why, deadline, skipped, panel, tooltip);
      assert Fits(a, x.s.view) by { FitsWhen(a, x.s.view, wantTooltip); }
      AppendSends(s, x, a, y);
    }
  }

  lemma FitsWhen(a: SchedulerAction, v: View, wantTooltip: bool)
    requires a.PublishDisplay? && Reasoned(v, a.why, a.panel, wantTooltip) && a.tooltip == (wantTooltip && v.presented)
    ensures Fits(a, v)
  {
  }

  /** The publication brings the panel this. */
  predicate Tells(a: SchedulerAction, why: PublishReason, deadline: Option<Time>, skipped: nat) {
    a.PublishDisplay? && a.panel && a.why == why && a.displayDeadline == deadline && a.skipped == skipped
  }

  ghost predicate TooltipShown(acts: seq<SchedulerAction>) {
    exists a :: a in acts && IsTooltipPublication(a)
  }

  /** What is in the list after a publication. */
  lemma PublishMembers(x: Step, why: PublishReason, deadline: Option<Time>, skipped: nat, panel: bool, wantTooltip: bool)
    requires panel ==> PanelReason(why)
    ensures var y := IssuePublish(x, why, deadline, skipped, panel, wantTooltip);
      && y.s == x.s.(feed := y.s.feed)
      && (forall a :: a in y.acts && IsFirstPaint(a) ==> a in x.acts || a.why == why)
      && (forall a :: a in x.acts && IsFirstPaint(a) ==> a in y.acts)
      && (forall a :: a in x.acts && a.PublishDisplay? && PanelReason(a.why) ==> a in y.acts)
      && (panel ==> exists a :: a in y.acts && Tells(a, why, deadline, skipped))
      && (TooltipShown(x.acts) ==> TooltipShown(y.acts))
      && (wantTooltip && x.s.view.presented ==> TooltipShown(y.acts))
  {
    var tooltip := wantTooltip && x.s.view.presented;
    var i, y := FirstRefresh(x.acts), IssuePublish(x, why, deadline, skipped, panel, wantTooltip);
    if (!panel && !tooltip) || (why == TooltipRefresh && HasTooltipPublication(x.acts)) {
      assert y == x;
    } else if panel && tooltip && i < |x.acts| {
      var merged := x.acts[i].(why := why, displayDeadline := deadline, skipped := skipped, panel := true, tooltip := true);
      MergeMembers(x.acts, i, merged);
    } else {
      var a := PublishDisplay(x.s.feed.nextPublicationId, why, deadline, skipped, panel, tooltip);
      assert y.acts == x.acts + [a] && a in y.acts;
    }
  }

  /** Publishing for another reason than the first paint. */
  lemma PublishAims(s: State, x: Step, why: PublishReason, deadline: Option<Time>, skipped: nat, panel: bool, wantTooltip: bool)
    requires Aimed(s, x) && Reasoned(x.s.view, why, panel, wantTooltip) && why !in {FirstPaintReady, FirstPaintTimeout}
    ensures Aimed(s, IssuePublish(x, why, deadline, skipped, panel, wantTooltip))
  {
    hide Sent, IssuePublish;
    PublishSends(s, x, why, deadline, skipped, panel, wantTooltip);
    PublishMembers(x, why, deadline, skipped, panel, wantTooltip);
    var y := IssuePublish(x, why, deadline, skipped, panel, wantTooltip);
    assert (exists a :: a in y.acts && IsFirstPaint(a)) <==> (exists a :: a in x.acts && IsFirstPaint(a));
  }

  lemma PaintedFrame(s: State)
    ensures var y := Painted(s); y.feed == s.feed && y.view == s.view && y.paint.firstPaintIssued
  {
    hide AdvancePast, Reanchored;
  }

  lemma SentSame(s: State, x: Step, y: Step)
    requires Sent(s, x) && y.acts == x.acts && y.s.feed == x.s.feed
    requires y.s.view.presented == x.s.view.presented && y.s.view.effectivePresented == x.s.view.effectivePresented
    ensures Sent(s, y)
  {
    hide Numbered, PanelIds;
  }

  lemma FirstPaintAims(s: State, x: Step, why: PublishReason)
    requires Aimed(s, x) && why in {FirstPaintReady, FirstPaintTimeout}
    ensures Aimed(s, IssueFirstPaint(x, why))
  {
    hide Sent, Painted, FirstPaintSkips, IssuePublish;
    if !x.s.paint.firstPaintIssued {
      var p := Step(Painted(x.s), x.acts);
      PaintedFrame(x.s);
      SentSame(s, x, p);
      PublishSends(s, p, why, None, FirstPaintSkips(x.s), true, x.s.view.effectivePresented);
      PublishMembers(p, why, None, FirstPaintSkips(x.s), true, x.s.view.effectivePresented);
    }
  }

  // ----- the steps of the arms

  lemma CancelMutes(x: Step, which: set<JobId>, reason: CancelReason)
    ensures Mute(x, CancelWhere(x, which, reason))
  {
    hide CancelRuns, Moved, Mute;
    MuteWith(x, CancelWhere(x, which, reason), CancelActions(Moved(x.s.runs.jobs, which), reason));
  }

  lemma CancelEndedMutes(x: Step, before: set<JobId>, after: set<JobId>)
    ensures Mute(x, CancelDemandEnded(x, before, after))
  {
    hide CancelWhere, AllRested, PageWork, Mute;
    var rested := Step(WithJobs(x.s, AllRested(x.s.runs.jobs, PageWork(before - after))), x.acts);
    MuteFrame(x, rested);
    CancelMutes(rested, PageWork(before - after), DemandEnded);
    MuteChain(x, rested, CancelDemandEnded(x, before, after));
  }

  lemma RefreshDemandMutes(x: Step, cancelPageJobs: bool)
    ensures Mute(x, RefreshDemand(x, cancelPageJobs))
  {
    hide CancelWhere, DemandRefreshed, PageWork, Mute, CurrentDemand;
    var demanded := CurrentDemand(x.s);
    var refreshed := Step(WithJobs(x.s, DemandRefreshed(x.s.runs.jobs, demanded, x.s.now)), x.acts);
    MuteFrame(x, refreshed);
    if cancelPageJobs {
      CancelMutes(refreshed, PageWork(x.s.runs.jobs.Keys - demanded), DemandEnded);
      MuteChain(x, refreshed, RefreshDemand(x, cancelPageJobs));
    }
  }

  lemma ActivateMutes(x: Step, before: set<JobId>, after: set<JobId>, track: bool)
    ensures Mute(x, Step(ActivateJobs(x.s, before, after, track), x.acts))
  {
    hide Mute, Marked, Sampling;
    MuteFrame(x, Step(ActivateJobs(x.s, before, after, track), x.acts));
  }

  lemma {:induction false} ReplaceEachAdds(r: Replacement, specs: seq<JobSpec>, now: Time, display: Time, reason: CancelReason)
    returns (tail: seq<SchedulerAction>)
    ensures ReplaceEach(r, specs, now, display, reason).acts == r.acts + tail && Unpublished(tail)
  {
    hide NewRuntime, Carried, ClearedMetrics, SourceChanged;
    tail := [];
    if specs != [] {
      var q, last := ReplaceEach(r, specs[..|specs| - 1], now, display, reason), specs[|specs| - 1];
      tail := ReplaceEachAdds(r, specs[..|specs| - 1], now, display, reason);
      if last.id in q.previous && SourceChanged(q.previous[last.id].spec, last) {
        tail := tail + [InvalidateJob(last.id, reason, ClearedMetrics(q.previous[last.id].spec, last))];
      }
    }
  }

  lemma ReplaceJobsMutes(x: Step, specs: seq<JobSpec>, reason: CancelReason)
    ensures Mute(x, ReplaceJobs(x, specs, reason))
  {
    hide CancelWhere, ReplaceEach, InvalidateAll, Marked, FirstPaintBlockers, CurrentDemand, Mute, DisplayAnchor;
    var x1 := CancelAll(x, reason);
    CancelMutes(x, x.s.runs.jobs.Keys, reason);
    var r0 := Replacement(x1.s.runs.jobs, map[], x1.acts);
    var tail := ReplaceEachAdds(r0, specs, x1.s.now, DisplayAnchor(x1.s), reason);
    var r := ReplaceEach(r0, specs, x1.s.now, DisplayAnchor(x1.s), reason);
    var gone := InvalidateAll(InOrder(r.previous.Keys), reason);
    var y := ReplaceJobs(x, specs, reason);
    assert y.acts == x1.acts + (tail + gone);
    MuteWith(x1, y, tail + gone);
    MuteChain(x, x1, y);
  }

  lemma ReanchorMutes(x: Step)
    ensures Mute(x, Step(ReanchorFastJobs(x.s), x.acts))
  {
    hide Mute, Reanchored;
    MuteFrame(x, Step(ReanchorFastJobs(x.s), x.acts));
  }

  lemma {:induction false} StartEachAdds(x: Step, cs: seq<Candidate>) returns (tail: seq<SchedulerAction>)
    requires Listed(x.s.runs.jobs, cs)
    ensures StartEach(x, cs).acts == x.acts + tail && Unpublished(tail)
  {
    hide Launch, TicketFor;
    tail := [];
    if cs != [] {
      var last := |cs| - 1;
      var y := StartEach(x, cs[..last]);
      tail := StartEachAdds(x, cs[..last]);
      if cs[last].id.owner !in y.s.runs.inFlightOwners {
        tail := tail + [StartJob(TicketFor(y.s, cs[last].id))];
      }
    }
  }

  lemma SettleMutes(x: Step, d: EventDisposition)
    ensures Mute(x, Settle(x, d))
  {
    hide Mute, StartEach, NextWake, CandidatesInOrder, Candidates;
    if d != Accepted || x.s.lifecycle != Running {
      MuteFrame(x, x);
    } else {
      var cs := CandidatesInOrder(Candidates(x.s));
      CandidatesListed(x.s);
      var y := Dispatch(x);
      var tail: seq<SchedulerAction> := [];
      if x.s.handshake.awaiting.None? {
        tail := StartEachAdds(x, cs);
        StartEachFrame(x, cs);
      }
      MuteWith(x, Settle(x, d), tail + WakeActions(y.s));
    }
  }

  // ----- the arms

  /** As long as nothing has been published, the view may change. */
  lemma UnsentAims(s: State, x: Step)
    requires x.acts == [] && x.s.feed == s.feed && x.s.paint.firstPaintIssued == s.paint.firstPaintIssued
    ensures Aimed(s, x)
  {
  }

  lemma DeactivationAims(s: State)
    ensures Aimed(s, ExpireDeactivation(Step(s, [])))
  {
    hide Aimed, RefreshDemand;
    var s1 := s.(view := s.view.(deactivationDeadline := None, effectivePresented := false));
    UnsentAims(s, Step(s, []));
    UnsentAims(s, Step(s.(view := s.view.(deactivationDeadline := None)), []));
    UnsentAims(s, Step(s1, []));
    RefreshDemandMutes(Step(s1, []), true);
    MuteAims(s, Step(s1, []), RefreshDemand(Step(s1, []), true));
  }

  lemma ActivationAims(s: State, x: Step)
    requires Aimed(s, x)
    ensures Aimed(s, ExpireActivation(x))
  {
    hide Aimed, IssuePublish, Mute;
    var y := Step(x.s.(view := x.s.view.(activationDeadline := None, activationWaiting := {})), x.acts);
    MuteFrame(x, y);
    MuteAims(s, x, y);
    PublishAims(s, y, TooltipRefresh, None, 0, false, true);
  }

  lemma TickAims(s: State, x: Step)
    requires Aimed(s, x)
    ensures Aimed(s, DisplayTick(x))
  {
    hide Aimed, IssuePublish, Mute, AdvancePast, SkippedIntervals;
    if x.s.paint.firstPaintIssued && Due(x.s.paint.nextDisplay, x.s.now) {
      var deadline := x.s.paint.nextDisplay.value;
      var skipped := SkippedIntervals(deadline, x.s.settings.displayInterval, x.s.now);
      var y := IssuePublish(x, DisplayDeadline, Some(deadline), skipped, true, x.s.view.effectivePresented);
      PublishAims(s, x, DisplayDeadline, Some(deadline), skipped, true, x.s.view.effectivePresented);
      MuteFrame(y, Step(AdvanceDisplay(y.s), y.acts));
      MuteAims(s, y, Step(AdvanceDisplay(y.s), y.acts));
    }
  }

  lemma TimeAims(s: State)
    ensures Aimed(s, TimeFirst(s))
  {
    hide Aimed, Mute, ExpireDeactivation, IssueFirstPaint, ExpireActivation, DisplayTick, TimedJobs, CurrentDemand;
    var x := Step(s, []);
    UnsentAims(s, x);
    var a := ExpireDeactivation(x);
    var b := ExpireFirstPaint(a);
    var d := DisplayTick(ExpireActivation(b));
    DeactivationAims(s);
    FirstPaintAims(s, a, FirstPaintTimeout);
    ActivationAims(s, b);
    TickAims(s, ExpireActivation(b));
    MuteFrame(d, Step(TimeJobs(d.s), d.acts));
    MuteAims(s, d, Step(TimeJobs(d.s), d.acts));
  }

  lemma FinishAims(s: State, x: Step, t: JobTicket, completion: CompletionKind, ready: bool)
    requires Aimed(s, x) && Finishes(x.s, t)
    ensures Aimed(s, FinishJob(x, t, completion, ready))
  {
    hide Aimed, Mute, CompletedJobs, CompletionActions, IssueFirstPaint, IssuePublish;
    var acts := CompletionActions(x.s, t, completion, ready);
    var y := Step(LandRun(x.s, t, completion), x.acts + acts);
    MuteWith(x, y, acts);
    MuteAims(s, x, y);
    FirstPaintAims(s, y, FirstPaintReady);
    var z := PaintWhenReady(y);
    var w := Step(z.s.(view := z.s.view.(activationDeadline := None)), z.acts);
    MuteFrame(z, w);
    MuteAims(s, z, w);
    PublishAims(s, w, TooltipRefresh, None, 0, false, true);
  }

  lemma TickArmAims(s: State, e: SchedulerEvent)
    requires Ticks(e)
    ensures Aimed(s, Apply(s, e).0)
  {
    hide Aimed, TimeFirst, FinishJob, Mute, Trigger, FinishCancellation, Finishes, Cancelling;
    var x := TimeFirst(s);
    TimeAims(s);
    if e.JobFinished? && Finishes(x.s, e.ticket) { FinishAims(s, x, e.ticket, e.completion, e.notificationReady); }
    if !e.TimeAdvanced? { TickTailMutes(x, e); }
    if e.RefreshTriggered? {
      MuteAims(s, x, Step(Trigger(x.s, e.job), x.acts));
    } else if !e.TimeAdvanced? {
      MuteAims(s, x, Step(FinishCancellation(x.s, e.ticket), x.acts));
    }
  }

  lemma TickTailMutes(x: Step, e: SchedulerEvent)
    requires Ticks(e) && !e.TimeAdvanced?
    ensures e.RefreshTriggered? ==> Mute(x, Step(Trigger(x.s, e.job), x.acts))
    ensures !e.RefreshTriggered? ==> Mute(x, Step(FinishCancellation(x.s, e.ticket), x.acts))
  {
    hide Mute, Sampling, CurrentDemand;
    if e.RefreshTriggered? {
      MuteFrame(x, Step(Trigger(x.s, e.job), x.acts));
    } else {
      MuteFrame(x, Step(FinishCancellation(x.s, e.ticket), x.acts));
    }
  }

  lemma StartAims(s: State, config: SchedulerConfig, inventory: nat)
    ensures Aimed(s, StartUp(Step(s, []), config, inventory))
  {
    hide Aimed, IssueFirstPaint, TableOf, CurrentDemand, Sampling, StartupPanel;
    var s1 := Started(s, config, inventory);
    var wanted := Sampling(CurrentDemand(s1), s1.runs.jobs);
    var waiting := s1.paint.firstPaintWaiting + StartupPanel(wanted, s1.runs.jobs);
    var x2 := Step(MarkJobs(s1, wanted).(paint := s1.paint.(firstPaintWaiting := waiting)), []);
    UnsentAims(s, x2);
    FirstPaintAims(s, x2, FirstPaintReady);
  }

  lemma ReconfigureAims(s: State, config: SchedulerConfig)
    ensures Aimed(s, Reconfigure(Step(s, []), config))
  {
    hide Aimed, Mute, ReplaceJobs, ReanchorFastJobs, RefreshDemand, IssuePublish, Marked, DiscoveryJobs;
    var x1 := Step(Reset(s, config), []);
    UnsentAims(s, x1);
    var x2 := ReplaceJobs(x1, config.jobs, ConfigReplaced);
    ReplaceJobsMutes(x1, config.jobs, ConfigReplaced);
    MuteAims(s, x1, x2);
    var r := Step(ReanchorFastJobs(x2.s), x2.acts);
    ReanchorMutes(x2);
    MuteAims(s, x2, r);
    var x3 := RefreshDemand(r, false);
    RefreshDemandMutes(r, false);
    MuteAims(s, r, x3);
    var x4 := Step(MarkJobs(x3.s, DiscoveryJobs(x3.s)), x3.acts);
    MuteFrame(x3, x4);
    MuteAims(s, x3, x4);
    PublishAims(s, x4, ConfigReload, None, 0, true, x4.s.view.effectivePresented);
  }

  lemma InventoryAims(s: State, update: InventoryUpdate)
    ensures Aimed(s, ChangeInventory(Step(s, []), update))
  {
    hide Aimed, Mute, ReplaceJobs, ActivateJobs, RefreshDemand, AllRetried, CurrentDemand, Acknowledges, Sampling;
    var resumes := Acknowledges(s, update);
    var before := CurrentDemand(s);
    var x1 := Step(s.(settings := s.settings.(inventoryGeneration := update.generation, demand := update.demand)), []);
    UnsentAims(s, x1);
    var x2 := ReplaceJobs(x1, update.jobs, SourceReplaced);
    ReplaceJobsMutes(x1, update.jobs, SourceReplaced);
    MuteAims(s, x1, x2);
    var x3 := Step(if resumes then x2.s.(handshake := x2.s.handshake.(awaiting := None)) else x2.s, x2.acts);
    MuteFrame(x2, x3);
    MuteAims(s, x2, x3);
    var x4 := Step(ActivateJobs(x3.s, before, CurrentDemand(x3.s), x3.s.view.effectivePresented), x2.acts);
    ActivateMutes(x3, before, CurrentDemand(x3.s), x3.s.view.effectivePresented);
    MuteAims(s, x3, x4);
    var x5 := RefreshDemand(x4, false);
    RefreshDemandMutes(x4, false);
    MuteAims(s, x4, x5);
    var x6 := Step(RefreshAllDemanded(x5.s), x5.acts);
    MuteFrame(x5, x6);
    MuteAims(s, x5, x6);
  }

  lemma BlockersAim(s: State, x: Step)
    requires Aimed(s, x)
    ensures Aimed(s, RebuildFirstPaintBlockers(x))
  {
    hide Aimed, Mute, IssueFirstPaint, FirstPaintBlockers, CurrentDemand;
    var blocked := Step(x.s.(paint := x.s.paint.(firstPaintWaiting := FirstPaintBlockers(x.s.runs.jobs, CurrentDemand(x.s)))), x.acts);
    MuteFrame(x, blocked);
    MuteAims(s, x, blocked);
    FirstPaintAims(s, blocked, FirstPaintReady);
  }

  lemma DemandAims(s: State, demand: DemandPlan)
    ensures Aimed(s, ChangeDemand(Step(s, []), demand))
  {
    hide Aimed, Mute, CancelDemandEnded, ActivateJobs, RefreshDemand, RebuildFirstPaintBlockers, CurrentDemand;
    var before := CurrentDemand(s);
    var x1 := Step(s.(settings := s.settings.(demand := demand)), []);
    var after := CurrentDemand(x1.s);
    UnsentAims(s, x1);
    var x2 := CancelDemandEnded(x1, before, after);
    CancelEndedMutes(x1, before, after);
    MuteAims(s, x1, x2);
    var x3 := Step(ActivateJobs(x2.s, before, after, x2.s.view.effectivePresented), x2.acts);
    ActivateMutes(x2, before, after, x2.s.view.effectivePresented);
    MuteAims(s, x2, x3);
    RefreshDemandMutes(x3, false);
    MuteAims(s, x3, RefreshDemand(x3, false));
    BlockersAim(s, RefreshDemand(x3, false));
  }

  lemma PageAims(s: State, page: PageId)
    ensures Aimed(s, ChangePage(Step(s, []), page))
  {
    hide Aimed, Mute, CancelDemandEnded, ActivateJobs, IssuePublish, CurrentDemand;
    var before := CurrentDemand(s);
    var x1 := Step(s.(view := s.view.(selectedPage := page)), []);
    var after := CurrentDemand(x1.s);
    UnsentAims(s, Step(s, []));
    UnsentAims(s, x1);
    var x2 := CancelDemandEnded(x1, before, after);
    CancelEndedMutes(x1, before, after);
    MuteAims(s, x1, x2);
    var x3 := Step(ActivateJobs(x2.s, before, after, true), x2.acts);
    ActivateMutes(x2, before, after, true);
    MuteAims(s, x2, x3);
    PublishAims(s, x3, PageChanged, None, 0, false, true);
  }

  lemma RefreshActivationAims(s: State, x: Step)
    requires Aimed(s, x)
    ensures Aimed(s, RefreshActivation(x))
  {
    hide Aimed, Mute, Marked, Stale, IssuePublish;
    var stale := Stale(x.s.runs.jobs);
    var waiting := x.s.view.activationWaiting + stale;
    var y := Step(MarkJobs(x.s, stale).(view := x.s.view.(activationWaiting := waiting)), x.acts);
    MuteFrame(x, y);
    MuteAims(s, x, y);
    PublishAims(s, y, TooltipActivated, None, 0, false, true);
    var z := Step(y.s.(view := WaitFor(y.s.view, waiting, true, y.s.now)), x.acts);
    MuteFrame(y, z);
    MuteAims(s, y, z);
  }

  lemma PresentationAims(s: State, presented: bool)
    ensures Aimed(s, ChangePresentation(Step(s, []), presented))
  {
    hide Aimed, RefreshActivation;
    ShowKeepsFeed(s);
    UnsentAims(s, Step(ShowTooltip(s), []));
    UnsentAims(s, Step(HideTooltip(s), []));
    RefreshActivationAims(s, Step(ShowTooltip(s), []));
  }

  lemma ShowKeepsFeed(s: State)
    ensures ShowTooltip(s).feed == s.feed && ShowTooltip(s).paint == s.paint
  {
    hide Marked, Sampling, DemandPlan.Demanded;
  }

  lemma LifecycleAims(s: State, reason: CancelReason, component: Option<string>)
    ensures Aimed(s, SuspendNow(Step(s, []))) && Aimed(s, StopNow(Step(s, []), reason, component)) && Aimed(s, ResumeNow(Step(s, [])))
  {
    hide Aimed, Mute, CancelWhere, Reanchored, ResumedJobs, CurrentDemand, BaselineResets;
    var x := Step(s, []);
    UnsentAims(s, x);
    CancelMutes(x, s.runs.jobs.Keys, ForSuspend);
    CancelMutes(x, s.runs.jobs.Keys, reason);
    var c, d := CancelAll(x, ForSuspend), CancelAll(x, reason);
    MuteFrame(c, Step(c.s.(lifecycle := Suspended), c.acts));
    MuteAims(s, x, c);
    MuteAims(s, c, Step(c.s.(lifecycle := Suspended), c.acts));
    MuteWith(d, Step(d.s.(lifecycle := Stopped), d.acts + [Terminate(component)]), [Terminate(component)]);
    MuteAims(s, x, d);
    MuteAims(s, d, StopNow(x, reason, component));
    if s.lifecycle == Suspended {
      var y := ResumeNow(x);
      var s1 := Awakened(s);
      MuteWith(x, y, [RescanHardware(s1.handshake.nextReconciliationId)] + BaselineResets(InOrder(s1.runs.jobs.Keys), s1.runs.jobs));
      MuteAims(s, x, y);
    }
  }

  /** Every arm but the panel's acknowledgement. */
  lemma ArmAims(s: State, e: SchedulerEvent)
    requires !e.PanelPublished?
    ensures Aimed(s, Apply(s, e).0)
  {
    hide Apply, Aimed;
    if Ticks(e) {
      TickArmAims(s, e);
    } else if e.Startup? || e.ConfigChanged? || e.InventoryChanged? || e.DemandChanged? || e.SelectedPageChanged? {
      PlanArmAims(s, e);
    } else {
      ViewArmAims(s, e);
    }
  }

  lemma PlanArmAims(s: State, e: SchedulerEvent)
    requires e.Startup? || e.ConfigChanged? || e.InventoryChanged? || e.DemandChanged? || e.SelectedPageChanged?
    ensures Aimed(s, Apply(s, e).0)
  {
    hide Aimed, StartUp, Reconfigure, ChangeInventory, ChangeDemand, ChangePage;
    match e
    case Startup(_, config, inventory) => StartAims(s, config, inventory);
    case ConfigChanged(_, config) => ReconfigureAims(s, config);
    case InventoryChanged(_, update) => InventoryAims(s, update);
    case DemandChanged(_, demand) => DemandAims(s, demand);
    case SelectedPageChanged(_, page) => PageAims(s, page);
  }

  lemma ViewArmAims(s: State, e: SchedulerEvent)
    requires e.TooltipPresented? || e.TooltipReactivated? || e.DisplayRefreshRequested? || e.TooltipRefreshRequested?
          || e.Suspend? || e.Resume? || e.Shutdown? || e.CriticalFailure?
    ensures Aimed(s, Apply(s, e).0)
  {
    hide Aimed, ChangePresentation, RefreshActivation, IssuePublish, SuspendNow, ResumeNow, StopNow;
    var x := Step(s, []);
    UnsentAims(s, x);
    match e
    case TooltipPresented(_, presented) => PresentationAims(s, presented);
    case TooltipReactivated(_) => RefreshActivationAims(s, x);
    case DisplayRefreshRequested(_) => PublishAims(s, x, ConfigReload, None, 0, true, s.view.effectivePresented);
    case TooltipRefreshRequested(_) => PublishAims(s, x, TooltipRefresh, None, 0, false, true);
    case Suspend(_) => LifecycleAims(s, ForSuspend, None);
    case Resume(_) => LifecycleAims(s, ForSuspend, None);
    case Shutdown(_) => LifecycleAims(s, ForShutdown, None);
    case CriticalFailure(_, component) => LifecycleAims(s, ForCriticalFailure, Some(component));
  }

  // ----- one event

  lemma InsertNumbered(a: SchedulerAction, acts: seq<SchedulerAction>, from: PublicationId, to: PublicationId)
    requires Numbered([a] + acts, from, to)
    ensures Numbered(InsertAction(a, acts), from, to)
  {
    if acts != [] && ActionPriority(a) > ActionPriority(acts[0]) {
      var h, t := acts[0], acts[1..];
      assert acts == [h] + t;
      TailNumbered(a, h, t, from, to);
      InsertNumbered(a, t, from, to);
      var rest := InsertAction(a, t);
      InsertMembers(a, t);
      HeadNumbered(h, rest, from, to);
    }
  }

  lemma InsertMembers(a: SchedulerAction, acts: seq<SchedulerAction>)
    ensures forall b :: b in InsertAction(a, acts) <==> b == a || b in acts
  {
    assert forall b :: b in InsertAction(a, acts) <==> b in multiset(InsertAction(a, acts));
    assert forall b :: b in acts <==> b in multiset(acts);
  }

  lemma TailNumbered(a: SchedulerAction, h: SchedulerAction, t: seq<SchedulerAction>, from: PublicationId, to: PublicationId)
    requires Numbered([a] + ([h] + t), from, to)
    ensures Numbered([a] + t, from, to)
    ensures h.PublishDisplay? ==> from <= h.publication < to
    ensures h.PublishDisplay? ==> forall b :: (b == a || b in t) && b.PublishDisplay? ==> b.publication != h.publication
  {
    hide Numbered;
    CutNumbered(a, [h] + t, from, to);
    CutNumbered(h, t, from, to);
    assert forall b :: b in [h] + t <==> b == h || b in t;
    HeadNumbered(a, t, from, to);
  }

  lemma HeadNumbered(h: SchedulerAction, rest: seq<SchedulerAction>, from: PublicationId, to: PublicationId)
    requires Numbered(rest, from, to)
    requires h.PublishDisplay? ==> from <= h.publication < to && forall b :: b in rest && b.PublishDisplay? ==> b.publication != h.publication
    ensures Numbered([h] + rest, from, to)
  {
    var all := [h] + rest;
    assert all[0] == h && forall k :: 0 <= k < |rest| ==> all[k + 1] == rest[k] && rest[k] in rest;
    forall i, j | 0 <= i < j < |all| && all[i].PublishDisplay? && all[j].PublishDisplay?
      ensures all[i].publication != all[j].publication
    {
      assert all[j] == rest[j - 1];
      if i > 0 { assert all[i] == rest[i - 1]; }
    }
  }

  lemma {:induction false} SortNumbered(acts: seq<SchedulerAction>, from: PublicationId, to: PublicationId)
    requires Numbered(acts, from, to)
    ensures Numbered(SortActions(acts), from, to)
  {
    if acts != [] {
      var a, t := acts[0], acts[1..];
      assert acts == [a] + t;
      assert Numbered(t, from, to) by { CutNumbered(a, t, from, to); }
      SortNumbered(t, from, to);
      CutNumbered(a, t, from, to);
      HeadNumbered(a, SortActions(t), from, to);
      InsertNumbered(a, SortActions(t), from, to);
    }
  }

  lemma CutNumbered(a: SchedulerAction, t: seq<SchedulerAction>, from: PublicationId, to: PublicationId)
    requires Numbered([a] + t, from, to)
    ensures Numbered(t, from, to)
    ensures a.PublishDisplay? ==> from <= a.publication < to && forall b :: b in t && b.PublishDisplay? ==> b.publication != a.publication
  {
    var all := [a] + t;
    assert all[0] == a && forall k :: 0 <= k < |t| ==> all[k + 1] == t[k] && t[k] in all;
    forall i, j | 0 <= i < j < |t| && t[i].PublishDisplay? && t[j].PublishDisplay?
      ensures t[i].publication != t[j].publication
    {
      assert all[i + 1] == t[i] && all[j + 1] == t[j];
    }
    forall b | b in t && b.PublishDisplay? && a.PublishDisplay?
      ensures b.publication != a.publication
    {
      var k :| 0 <= k < |t| && t[k] == b;
      assert all[k + 1] == b;
    }
    assert a in all;
  }

  /** The publication that an accepted event acknowledges. */
  function Acknowledged(e: SchedulerEvent, d: EventDisposition): set<PublicationId> {
    if e.PanelPublished? && d == Accepted then {e.publication} else {}
  }

  /** What one event publishes: new numbers, each used once and known to the panel's books exactly if the panel is
      sent it; surfaces that fit the reason and the view; and a first paint exactly when that is issued. */
  ghost predicate Publishes(s: State, e: SchedulerEvent, out: Outcome) {
    && Numbered(out.acts, s.feed.nextPublicationId, out.s.feed.nextPublicationId)
    && out.s.feed.panelPublications
         == (s.feed.panelPublications - Acknowledged(e, out.disposition)) + PanelIds(out.acts)
    && (forall a :: a in out.acts ==> Fits(a, out.s.view))
    && PaintSaid(s.paint.firstPaintIssued, out.s.paint.firstPaintIssued, out.acts)
    && (out.s.feed.notificationsArmed <==> s.feed.notificationsArmed || Acknowledged(e, out.disposition) != {})
  }

  lemma AimedPublishes(s: State, e: SchedulerEvent, x: Step, d: EventDisposition)
    requires Aimed(s, x) && Acknowledged(e, d) == {}
    ensures Publishes(s, e, Outcome(x.s, d, SortActions(x.acts)))
  {
    hide Numbered;
    SortNumbered(x.acts, s.feed.nextPublicationId, x.s.feed.nextPublicationId);
    assert PanelIds(SortActions(x.acts)) == PanelIds(x.acts);
    assert s.feed.panelPublications - {} == s.feed.panelPublications;
    forall a
      ensures a in SortActions(x.acts) && IsFirstPaint(a) <==> a in x.acts && IsFirstPaint(a)
    {
    }
  }

  lemma AimedNow(s: State, x: Step, now: Time)
    requires Aimed(s.(now := now), x)
    ensures Aimed(s, x)
  {
    hide Numbered, PanelIds;
  }

  lemma RejectedPublishes(s: State, e: SchedulerEvent)
    requires EarlyRejection(s, e).Some?
    ensures Publishes(s, e, Handle(s, e))
  {
    EarlyRejectionCloses(s, e);
    NothingAimed(s);
    assert s.feed.panelPublications - {} == s.feed.panelPublications;
  }

  lemma AcknowledgePublishes(s: State, e: SchedulerEvent)
    requires e.PanelPublished? && EarlyRejection(s, e).None?
    ensures Publishes(s, e, Handle(s, e)) && Handle(s, e).disposition == Accepted
  {
    hide Settle, SortActions, Numbered, Mute;
    var s' := s.(now := e.at);
    var x := Step(Acknowledge(s', e.publication), []);
    NothingAimed(x.s);
    SettleMutes(x, Accepted);
    MuteAims(x.s, x, Settle(x, Accepted));
    AimedPublishes(x.s, TimeAdvanced(e.at), Settle(x, Accepted), Accepted);
    var out := Handle(s, e);
    assert x.s.feed.panelPublications - {} == x.s.feed.panelPublications;
  }

  lemma HandlePublishes(s: State, e: SchedulerEvent)
    ensures Publishes(s, e, Handle(s, e))
  {
    if EarlyRejection(s, e).Some? {
      RejectedPublishes(s, e);
    } else if e.PanelPublished? {
      AcknowledgePublishes(s, e);
    } else {
      hide Apply, Settle, SortActions, Aimed, Mute, EarlyRejection, Publishes;
      var s' := s.(now := e.at);
      var (x, d) := Apply(s', e);
      ArmAims(s', e);
      SettleMutes(x, d);
      MuteAims(s', x, Settle(x, d));
      AimedNow(s, Settle(x, d), e.at);
      AimedPublishes(s, e, Settle(x, d), d);
    }
  }

  // ----- results

  /** Whatever is published goes to the panel exactly when it is a first paint, a display deadline or an asked-for
      refresh of the panel, and to the tooltip exactly when that is presented and, if the panel is meant as well, in
      effect. */
  lemma PublicationsFit(s: State, e: SchedulerEvent, a: SchedulerAction)
    requires a in Handle(s, e).acts && a.PublishDisplay?
    ensures a.panel <==> a.why in {FirstPaintReady, FirstPaintTimeout, DisplayDeadline, ConfigReload}
    ensures var v := Handle(s, e).s.view; a.tooltip <==> v.presented && (a.panel ==> v.effectivePresented)
    ensures s.feed.nextPublicationId <= a.publication < Handle(s, e).s.feed.nextPublicationId
  {
    hide Handle, PanelIds;
    HandlePublishes(s, e);
  }

  /** The first paint is published exactly when it is issued, and to the panel. */
  lemma FirstPaintReachesPanel(s: State, e: SchedulerEvent)
    ensures var out := Handle(s, e);
      && (!s.paint.firstPaintIssued && out.s.paint.firstPaintIssued <==>
            exists a :: a in out.acts && a.PublishDisplay? && a.panel && a.why in {FirstPaintReady, FirstPaintTimeout})
      && (s.paint.firstPaintIssued ==> out.s.paint.firstPaintIssued)
  {
    hide Handle, PanelIds, Numbered;
    HandlePublishes(s, e);
    var out := Handle(s, e);
    assert forall a :: a in out.acts && IsFirstPaint(a) ==> a.panel;
  }

  lemma {:induction false} PaintedStays(s: State, events: seq<SchedulerEvent>)
    ensures s.paint.firstPaintIssued ==> Run(s, events).paint.firstPaintIssued
  {
    hide Handle;
    if events != [] {
      PaintedStays(s, events[..|events| - 1]);
      FirstPaintReachesPanel(Run(s, events[..|events| - 1]), events[|events| - 1]);
    }
  }

  ghost predicate SaysFirstPaint(s: State, e: SchedulerEvent) {
    exists a :: a in Handle(s, e).acts && IsFirstPaint(a)
  }

  /** No run publishes two first paints. */
  lemma FirstPaintIsOnce(events: seq<SchedulerEvent>, i: nat, j: nat)
    requires i < j < |events|
    ensures !(SaysFirstPaint(Run(INITIAL, events[..i]), events[i]) && SaysFirstPaint(Run(INITIAL, events[..j]), events[j]))
  {
    hide Handle, Run, PanelIds, Numbered, Fits;
    HandlePublishes(Run(INITIAL, events[..i]), events[i]);
    HandlePublishes(Run(INITIAL, events[..j]), events[j]);
    RunSplits(INITIAL, events[..i + 1], events[i + 1..j]);
    assert events[..j] == events[..i + 1] + events[i + 1..j];
    OneMore(events, i);
    PaintedStays(Run(INITIAL, events[..i + 1]), events[i + 1..j]);
  }

  lemma OneMore(events: seq<SchedulerEvent>, i: nat)
    requires i < |events|
    ensures Run(INITIAL, events[..i + 1]) == Handle(Run(INITIAL, events[..i]), events[i]).s
  {
    hide Handle;
    assert events[..i + 1][..i] == events[..i];
  }

  // ----- the panel's books

  /** The publications an observer believes the panel has still to acknowledge: each one handed out for the panel
      opens an entry, each accepted acknowledgement closes the one it names. */
  function PanelLedger(events: seq<SchedulerEvent>): set<PublicationId> {
    if events == [] then {}
    else
      var last := |events| - 1;
      var out := Handle(Run(INITIAL, events[..last]), events[last]);
      (PanelLedger(events[..last]) - Acknowledged(events[last], out.disposition)) + PanelIds(out.acts)
  }

  lemma {:induction false} PanelLedgerIsKept(events: seq<SchedulerEvent>)
    ensures Run(INITIAL, events).feed.panelPublications == PanelLedger(events)
  {
    hide Handle, PanelIds, Numbered;
    if events != [] {
      var last := |events| - 1;
      PanelLedgerIsKept(events[..last]);
      HandlePublishes(Run(INITIAL, events[..last]), events[last]);
    }
  }

  /** Event `k` of the run hands out publication `p` for the panel. */
  predicate HandsOut(events: seq<SchedulerEvent>, k: nat, p: PublicationId)
    requires k < |events|
  {
    p in PanelIds(Handle(Run(INITIAL, events[..k]), events[k]).acts)
  }

  /** Event `k` is an accepted acknowledgement of publication `p`. */
  predicate TakesBack(events: seq<SchedulerEvent>, k: nat, p: PublicationId)
    requires k < |events|
  {
    p in Acknowledged(events[k], Handle(Run(INITIAL, events[..k]), events[k]).disposition)
  }

  /** Publication `p` was handed out for the panel and has not been acknowledged since. */
  ghost predicate Unacknowledged(events: seq<SchedulerEvent>, p: PublicationId) {
    exists k: nat :: k < |events| && HandsOut(events, k, p) && forall m: nat :: k < m < |events| ==> !TakesBack(events, m, p)
  }

  lemma FrontIsSame(events: seq<SchedulerEvent>, k: nat, p: PublicationId)
    requires k < |events| - 1
    ensures var front := events[..|events| - 1];
      (HandsOut(front, k, p) <==> HandsOut(events, k, p)) && (TakesBack(front, k, p) <==> TakesBack(events, k, p))
  {
    hide Handle, Run, PanelIds;
    assert events[..|events| - 1][..k] == events[..k];
  }

  lemma {:induction false} LedgerIsUnacknowledged(events: seq<SchedulerEvent>, p: PublicationId)
    ensures p in PanelLedger(events) <==> Unacknowledged(events, p)
  {
    hide Handle, Run, PanelIds, HandsOut, TakesBack;
    if events != [] {
      var front, last := events[..|events| - 1], |events| - 1;
      LedgerIsUnacknowledged(front, p);
      forall k: nat | k < last
        ensures (HandsOut(front, k, p) <==> HandsOut(events, k, p)) && (TakesBack(front, k, p) <==> TakesBack(events, k, p))
      {
        FrontIsSame(events, k, p);
      }
      LastEntry(events, p);
      if Unacknowledged(front, p) && !TakesBack(events, last, p) {
        var k: nat :| k < |front| && HandsOut(front, k, p) && forall m: nat :: k < m < |front| ==> !TakesBack(front, m, p);
        assert HandsOut(events, k, p);
      }
      if Unacknowledged(events, p) && !HandsOut(events, last, p) {
        var k: nat :| k < |events| && HandsOut(events, k, p) && forall m: nat :: k < m < |events| ==> !TakesBack(events, m, p);
        assert HandsOut(front, k, p);
      }
    }
  }

  lemma LastEntry(events: seq<SchedulerEvent>, p: PublicationId)
    requires events != []
    ensures var last := |events| - 1;
      p in PanelLedger(events) <==> (p in PanelLedger(events[..last]) && !TakesBack(events, last, p)) || HandsOut(events, last, p)
  {
    hide Handle, Run, PanelIds;
  }

  /** Over every run, an acknowledgement by the panel that is not from the past is accepted, until the scheduler is
      stopped, exactly when the publication was handed out for the panel and has not been acknowledged since. */
  lemma AcknowledgementIsAcceptedIff(events: seq<SchedulerEvent>, at: Time, p: PublicationId)
    requires var s := Run(INITIAL, events); s.now <= at && s.lifecycle != Stopped
    ensures Handle(Run(INITIAL, events), PanelPublished(at, p)).disposition == Accepted <==> Unacknowledged(events, p)
  {
    hide Run, PanelLedger, Unacknowledged, Handle;
    var s, e := Run(INITIAL, events), PanelPublished(at, p);
    PanelLedgerIsKept(events);
    LedgerIsUnacknowledged(events, p);
    InitialInvariant();
    RunKeepsInvariant(INITIAL, events);
    if EarlyRejection(s, e).Some? {
      EarlyRejectionCloses(s, e);
      NothingBeforeStart(s);
    } else {
      AcknowledgePublishes(s, e);
    }
  }

  lemma NothingBeforeStart(s: State)
    requires Inv(s)
    ensures s.lifecycle == Unstarted ==> s.feed.panelPublications == {}
  {
  }

  // ----- numbers

  lemma {:induction false} NumbersGrow(s: State, events: seq<SchedulerEvent>)
    ensures s.feed.nextPublicationId <= Run(s, events).feed.nextPublicationId
  {
    hide Handle, PanelIds;
    if events != [] {
      NumbersGrow(s, events[..|events| - 1]);
      HandlePublishes(Run(s, events[..|events| - 1]), events[|events| - 1]);
    }
  }

  /** Two publications of one run never have the same number, whether one event hands out both or two do. */
  lemma NumbersAreNeverReused(events: seq<SchedulerEvent>, i: nat, j: nat, k: nat, m: nat)
    requires i <= j < |events|
    requires var acts := Handle(Run(INITIAL, events[..i]), events[i]).acts; k < |acts| && acts[k].PublishDisplay?
    requires var acts := Handle(Run(INITIAL, events[..j]), events[j]).acts; m < |acts| && acts[m].PublishDisplay?
    requires i < j || k < m
    ensures Handle(Run(INITIAL, events[..i]), events[i]).acts[k].publication
         != Handle(Run(INITIAL, events[..j]), events[j]).acts[m].publication
  {
    hide Handle, Run, PanelIds, Fits;
    HandlePublishes(Run(INITIAL, events[..i]), events[i]);
    HandlePublishes(Run(INITIAL, events[..j]), events[j]);
    if i < j {
      RunSplits(INITIAL, events[..i + 1], events[i + 1..j]);
      assert events[..j] == events[..i + 1] + events[i + 1..j];
      OneMore(events, i);
      NumbersGrow(Run(INITIAL, events[..i + 1]), events[i + 1..j]);
      var a, b := Handle(Run(INITIAL, events[..i]), events[i]).acts, Handle(Run(INITIAL, events[..j]), events[j]).acts;
      assert a[k] in a && b[m] in b;
    }
  }

  // ----- arming

  /** Notifications are armed exactly once the panel has acknowledged something. */
  lemma {:induction false} ArmedIff(events: seq<SchedulerEvent>)
    ensures Run(INITIAL, events).feed.notificationsArmed <==>
      exists k: nat :: k < |events| && events[k].PanelPublished?
                       && Handle(Run(INITIAL, events[..k]), events[k]).disposition == Accepted
  {
    hide Handle, PanelIds, Numbered, Fits;
    if events != [] {
      var front, last := events[..|events| - 1], |events| - 1;
      ArmedIff(front);
      HandlePublishes(Run(INITIAL, front), events[last]);
      assert forall k: nat :: k < |front| ==> front[..k] == events[..k] && front[k] == events[k];
      assert front == events[..last];
    }
  }

  // ----- what must be published

  /** What was published for the panel is still there, and the tooltip, if it was reached, still is. */
  ghost predicate Keeps(x: Step, y: Step) {
    && (forall a :: a in x.acts && a.PublishDisplay? && PanelReason(a.why) ==> a in y.acts)
    && (TooltipShown(x.acts) ==> TooltipShown(y.acts))
  }

  lemma MuteKeeps(x: Step, y: Step)
    requires Mute(x, y)
    ensures Keeps(x, y)
  {
  }

  lemma KeepsChain(x: Step, y: Step, z: Step)
    requires Keeps(x, y) && Keeps(y, z)
    ensures Keeps(x, z)
  {
    hide TooltipShown, PanelReason;
    assert forall a :: a in y.acts && a.PublishDisplay? && PanelReason(a.why) ==> a in z.acts;
  }

  lemma PublishKeeps(x: Step, why: PublishReason, deadline: Option<Time>, skipped: nat, panel: bool, wantTooltip: bool)
    requires panel ==> PanelReason(why)
    ensures Keeps(x, IssuePublish(x, why, deadline, skipped, panel, wantTooltip))
  {
    hide IssuePublish, TooltipShown;
    PublishMembers(x, why, deadline, skipped, panel, wantTooltip);
  }

  lemma FirstPaintKeeps(x: Step, why: PublishReason)
    requires why in {FirstPaintReady, FirstPaintTimeout}
    ensures Keeps(x, IssueFirstPaint(x, why))
  {
    hide IssuePublish, TooltipShown, Painted, FirstPaintSkips;
    PublishKeeps(Step(Painted(x.s), x.acts), why, None, FirstPaintSkips(x.s), true, x.s.view.effectivePresented);
  }

  lemma FinishKeeps(x: Step, t: JobTicket, completion: CompletionKind, ready: bool)
    requires Finishes(x.s, t)
    ensures Keeps(x, FinishJob(x, t, completion, ready))
  {
    hide Mute, Keeps, CompletedJobs, CompletionActions, IssueFirstPaint, IssuePublish;
    var acts := CompletionActions(x.s, t, completion, ready);
    var y := Step(LandRun(x.s, t, completion), x.acts + acts);
    MuteWith(x, y, acts);
    MuteKeeps(x, y);
    FirstPaintKeeps(y, FirstPaintReady);
    var z := PaintWhenReady(y);
    var w := Step(z.s.(view := z.s.view.(activationDeadline := None)), z.acts);
    SelfKeeps(y);
    KeepsChain(x, y, z);
    SelfKeeps(z);
    MuteFrame(z, w);
    MuteKeeps(z, w);
    PublishKeeps(w, TooltipRefresh, None, 0, false, true);
    KeepsChain(z, w, IssuePublish(w, TooltipRefresh, None, 0, false, true));
    KeepsChain(x, z, RefreshWhenReady(z));
  }

  lemma SelfKeeps(x: Step)
    ensures Keeps(x, x)
  {
  }

  /** What processing the time has published is among the actions handed out. */
  lemma TickArmKeeps(s: State, e: SchedulerEvent)
    requires Ticks(e)
    ensures Keeps(TimeFirst(s), Apply(s, e).0)
  {
    hide TimeFirst, FinishJob, Mute, Keeps, Trigger, FinishCancellation, Finishes, Cancelling;
    var x := TimeFirst(s);
    SelfKeeps(x);
    if e.JobFinished? && Finishes(x.s, e.ticket) { FinishKeeps(x, e.ticket, e.completion, e.notificationReady); }
    if !e.TimeAdvanced? { TickTailMutes(x, e); }
    if e.RefreshTriggered? {
      MuteKeeps(x, Step(Trigger(x.s, e.job), x.acts));
    } else if !e.TimeAdvanced? {
      MuteKeeps(x, Step(FinishCancellation(x.s, e.ticket), x.acts));
    }
  }

  lemma SortKeeps(x: Step)
    ensures Keeps(x, Step(x.s, SortActions(x.acts)))
  {
    if TooltipShown(x.acts) {
      var a :| a in x.acts && IsTooltipPublication(a);
      assert a in SortActions(x.acts);
    }
  }

  lemma HandleKeeps(s: State, e: SchedulerEvent)
    requires Ticks(e) && EarlyRejection(s, e).None?
    ensures Keeps(TimeFirst(s.(now := e.at)), Step(Handle(s, e).s, Handle(s, e).acts))
  {
    hide Apply, Settle, SortActions, Keeps, Mute, TimeFirst, EarlyRejection;
    var s' := s.(now := e.at);
    var (x, d) := Apply(s', e);
    TickArmKeeps(s', e);
    SettleMutes(x, d);
    MuteKeeps(x, Settle(x, d));
    KeepsChain(TimeFirst(s'), x, Settle(x, d));
    SortKeeps(Settle(x, d));
    KeepsChain(TimeFirst(s'), Settle(x, d), Step(Handle(s, e).s, Handle(s, e).acts));
  }

  lemma TickSpeaks(x: Step)
    requires x.s.paint.firstPaintIssued && Due(x.s.paint.nextDisplay, x.s.now)
    ensures exists a :: a in DisplayTick(x).acts
              && Tells(a, DisplayDeadline, x.s.paint.nextDisplay,
                       SkippedIntervals(x.s.paint.nextDisplay.value, x.s.settings.displayInterval, x.s.now))
  {
    hide IssuePublish, AdvancePast, SkippedIntervals;
    var deadline := x.s.paint.nextDisplay.value;
    PublishMembers(x, DisplayDeadline, Some(deadline), SkippedIntervals(deadline, x.s.settings.displayInterval, x.s.now), true,
                   x.s.view.effectivePresented);
  }

  lemma DueTickSpeaks(s: State)
    requires PaintOk(s.paint) && s.paint.firstPaintIssued && s.lifecycle == Running && Due(s.paint.nextDisplay, s.now)
    ensures exists a :: a in TimeFirst(s).acts
              && Tells(a, DisplayDeadline, s.paint.nextDisplay,
                       SkippedIntervals(s.paint.nextDisplay.value, s.settings.displayInterval, s.now))
  {
    hide ExpireDeactivation, ExpireActivation, DisplayTick, TimedJobs, CurrentDemand, SkippedIntervals, SameClocks;
    var x := Step(s, []);
    DeactivationClocks(x);
    var a := ExpireDeactivation(x);
    assert ExpireFirstPaint(a) == a;
    ActivationClocks(a);
    var c := ExpireActivation(a);
    ClockFrame(s, a.s);
    ClockFrame(a.s, c.s);
    TickSpeaks(c);
  }

  /** When the display deadline is due, an event that processes the time publishes to the panel, with that deadline
      and the number of further ones that have passed; the tooltip is included exactly when it is presented and in
      effect. */
  lemma DueDisplayReachesPanel(s: State, e: SchedulerEvent)
    requires Inv(s) && s.lifecycle == Running && s.paint.firstPaintIssued
    requires Ticks(e) && EarlyRejection(s, e).None? && Due(s.paint.nextDisplay, e.at)
    ensures var out := Handle(s, e);
      exists a :: a in out.acts && a.PublishDisplay? && a.why == DisplayDeadline && a.panel && a.displayDeadline == s.paint.nextDisplay
        && a.skipped == SkippedIntervals(s.paint.nextDisplay.value, s.settings.displayInterval, e.at)
        && (a.tooltip <==> out.s.view.presented && out.s.view.effectivePresented)
  {
    hide Inv, Handle, TimeFirst, SkippedIntervals, EarlyRejection;
    InvPaint(s);
    var s' := s.(now := e.at);
    DueTickSpeaks(s');
    HandleKeeps(s, e);
    var skipped := SkippedIntervals(s.paint.nextDisplay.value, s.settings.displayInterval, e.at);
    var a :| a in TimeFirst(s').acts && Tells(a, DisplayDeadline, s.paint.nextDisplay, skipped);
    assert a in Handle(s, e).acts;
    PublicationsFit(s, e, a);
  }

  lemma ActivationSpeaks(x: Step)
    requires Due(x.s.view.activationDeadline, x.s.now) && x.s.view.presented
    ensures TooltipShown(ExpireActivation(x).acts)
  {
    hide IssuePublish, TooltipShown;
    PublishMembers(Step(x.s.(view := x.s.view.(activationDeadline := None, activationWaiting := {})), x.acts), TooltipRefresh, None, 0, false, true);
  }

  lemma TickKeeps(x: Step)
    ensures Keeps(x, DisplayTick(x))
  {
    hide IssuePublish, TooltipShown, SkippedIntervals, AdvancePast;
    if x.s.paint.firstPaintIssued && Due(x.s.paint.nextDisplay, x.s.now) {
      var deadline := x.s.paint.nextDisplay.value;
      PublishKeeps(x, DisplayDeadline, Some(deadline), SkippedIntervals(deadline, x.s.settings.displayInterval, x.s.now), true,
                   x.s.view.effectivePresented);
    }
  }

  lemma TimersKeepPresented(x: Step)
    ensures var y := ExpireFirstPaint(ExpireDeactivation(x)).s;
      && y.now == x.s.now && y.view.presented == x.s.view.presented && y.view.activationDeadline == x.s.view.activationDeadline
      && y.view.activationWaiting == x.s.view.activationWaiting
  {
    hide IssueFirstPaint, CancelRuns, Moved, CancelActions, DemandRefreshed, PageWork, CurrentDemand;
    PaintKeepsView(ExpireDeactivation(x), FirstPaintTimeout);
  }

  lemma PaintKeepsView(x: Step, why: PublishReason)
    ensures IssueFirstPaint(x, why).s.view == x.s.view && IssueFirstPaint(x, why).s.now == x.s.now
  {
    hide Publish, AdvancePast, FirstPaintSkips, Reanchored;
  }

  /** A tooltip that waits for fresh values is published when its time is up, whatever is still missing. */
  lemma ActivationIsAnswered(s: State, e: SchedulerEvent)
    requires s.lifecycle == Running && Ticks(e) && EarlyRejection(s, e).None?
    requires s.view.presented && Due(s.view.activationDeadline, e.at)
    ensures exists a :: a in Handle(s, e).acts && a.PublishDisplay? && a.tooltip
  {
    hide Handle, ExpireFirstPaint, ExpireDeactivation, ExpireActivation, DisplayTick, EarlyRejection, TimedJobs, CurrentDemand;
    var s' := s.(now := e.at);
    var x := Step(s', []);
    TimersKeepPresented(x);
    var b := ExpireFirstPaint(ExpireDeactivation(x));
    ActivationSpeaks(b);
    TickKeeps(ExpireActivation(b));
    HandleKeeps(s, e);
    assert TooltipShown(TimeFirst(s').acts);
  }

  /** A requested refresh of the panel is published to it, and one of a presented tooltip to that. */
  lemma RequestsAreAnswered(s: State, e: SchedulerEvent)
    requires Handle(s, e).disposition == Accepted
    ensures e.DisplayRefreshRequested? ==> exists a :: a in Handle(s, e).acts && a.PublishDisplay? && a.panel
    ensures e.TooltipRefreshRequested? && s.view.presented ==> exists a :: a in Handle(s, e).acts && a.PublishDisplay? && a.tooltip
  {
    hide Settle, SortActions, IssuePublish, Keeps, Mute;
    if e.DisplayRefreshRequested? || e.TooltipRefreshRequested? {
      AcceptedIsNotEarly(s, e);
      var s' := s.(now := e.at);
      var x := Step(s', []);
      PublishMembers(x, ConfigReload, None, 0, true, s.view.effectivePresented);
      PublishMembers(x, TooltipRefresh, None, 0, false, true);
      var y := Apply(s', e).0;
      SettleMutes(y, Accepted);
      MuteKeeps(y, Settle(y, Accepted));
      SortKeeps(Settle(y, Accepted));
      KeepsChain(y, Settle(y, Accepted), Step(Settle(y, Accepted).s, SortActions(Settle(y, Accepted).acts)));
      KeptSpeaks(y, Step(Handle(s, e).s, Handle(s, e).acts));
    }
  }

  lemma KeptSpeaks(x: Step, y: Step)
    requires Keeps(x, y)
    ensures TooltipShown(x.acts) ==> exists a :: a in y.acts && a.PublishDisplay? && a.tooltip
    ensures (exists a :: a in x.acts && Tells(a, ConfigReload, None, 0)) ==> exists a :: a in y.acts && a.PublishDisplay? && a.panel
  {
    if a :| a in x.acts && Tells(a, ConfigReload, None, 0) {
      assert a in y.acts;
    }
  }

  // ----- what a tooltip waits for

  lemma TimeKeepsWaiting(s: State)
    requires s.lifecycle == Running && !Due(s.view.activationDeadline, s.now)
    ensures var v := TimeFirst(s).s.view;
      && v.presented == s.view.presented && v.activationDeadline == s.view.activationDeadline
      && v.activationWaiting == s.view.activationWaiting
  {
    hide ExpireFirstPaint, ExpireDeactivation, DisplayTick, TimedJobs, CurrentDemand;
    var b := ExpireFirstPaint(ExpireDeactivation(Step(s, [])));
    TimersKeepPresented(Step(s, []));
    assert ExpireActivation(b) == b;
    TickKeepsView(b);
  }

  lemma TickKeepsView(x: Step)
    ensures DisplayTick(x).s.view == x.s.view
  {
    hide Publish, SkippedIntervals, AdvancePast;
  }

  lemma LastAwaitedSpeaks(x: Step, t: JobTicket, completion: CompletionKind, ready: bool)
    requires Finishes(x.s, t) && x.s.view.presented && x.s.view.activationDeadline.Some? && x.s.view.activationWaiting <= {t.job}
    ensures TooltipShown(FinishJob(x, t, completion, ready).acts)
  {
    hide CompletedJobs, CompletionActions, IssueFirstPaint, IssuePublish, TooltipShown;
    var y := Step(LandRun(x.s, t, completion), x.acts + CompletionActions(x.s, t, completion, ready));
    PaintKeepsView(y, FirstPaintReady);
    var z := PaintWhenReady(y);
    assert z.s.view.activationWaiting == {};
    PublishMembers(Step(z.s.(view := z.s.view.(activationDeadline := None)), z.acts), TooltipRefresh, None, 0, false, true);
  }

  /** A tooltip that waits for fresh values is published as soon as the last of the jobs it waits for has reported,
      whatever the result. */
  lemma AwaitedTooltipIsPublished(s: State, e: SchedulerEvent)
    requires s.lifecycle == Running && e.JobFinished? && !Cancelling(s.runs, e.ticket) && Handle(s, e).disposition == Accepted
    requires s.view.presented && s.view.activationDeadline.Some? && s.view.activationWaiting <= {e.ticket.job}
    ensures exists a :: a in Handle(s, e).acts && a.PublishDisplay? && a.tooltip
  {
    hide Settle, SortActions, Keeps, Mute, TimeFirst, FinishJob, EarlyRejection;
    AcceptedIsNotEarly(s, e);
    if Due(s.view.activationDeadline, e.at) {
      ActivationIsAnswered(s, e);
    } else {
      var s' := s.(now := e.at);
      TimeKeepsWaiting(s');
      var y := Apply(s', e).0;
      LastAwaitedSpeaks(TimeFirst(s'), e.ticket, e.completion, e.notificationReady);
      SettledSpeaks(y, s, e);
    }
  }

  /** What the arm has published for the tooltip is handed out. */
  lemma SettledSpeaks(y: Step, s: State, e: SchedulerEvent)
    requires EarlyRejection(s, e).None? && y == Apply(s.(now := e.at), e).0 && TooltipShown(y.acts)
    ensures exists a :: a in Handle(s, e).acts && a.PublishDisplay? && a.tooltip
  {
    hide Apply, Settle, SortActions, Keeps, Mute, EarlyRejection;
    var d := Apply(s.(now := e.at), e).1;
    SettleMutes(y, d);
    MuteKeeps(y, Settle(y, d));
    SortKeeps(Settle(y, d));
    KeepsChain(y, Settle(y, d), Step(Settle(y, d).s, SortActions(Settle(y, d).acts)));
    KeptSpeaks(y, Step(Handle(s, e).s, Handle(s, e).acts));
  }

  /** The jobs a tooltip that comes up waits for: those it still did, as far as they are wanted, those it makes the
      plan want, and those that read metrics for it alone. */
  predicate Awaits(s: State, e: SchedulerEvent, id: JobId) {
    (id in s.view.activationWaiting && (s.view.effectivePresented || Wanted(Viewed(s, e), id)))
    || (id in s.runs.jobs && (NewlyWanted(s, e, id) || WantsTooltipRefresh(s.runs.jobs[id].spec)))
  }

  lemma ShownWaits(s: State, id: JobId)
    ensures var e := TooltipPresented(s.now, true);
      id in ChangePresentation(Step(s, []), true).s.view.activationWaiting <==>
        if s.view.presented then id in ShowTooltip(s).view.activationWaiting else Awaits(s, e, id)
    ensures ShowTooltip(s).view.presented
  {
    hide Publish, WantsTooltipRefresh, CurrentDemand, Wanted, Marked, ShowTooltip;
    var e := TooltipPresented(s.now, true);
    var v := Viewed(s, e);
    var s1 := s.(view := s.view.(presented := true, deactivationDeadline := None, effectivePresented := true));
    SameDemand(s1, v);
    DemandIsWanted(v, id);
    DemandIsWanted(s, id);
    ShownJobs(s);
    ShownSet(s, id);
    ShownDeadline(s);
  }

  lemma ShownSet(s: State, id: JobId)
    ensures var s1 := s.(view := s.view.(presented := true, deactivationDeadline := None, effectivePresented := true));
      id in ShowTooltip(s).view.activationWaiting <==>
        if s.view.effectivePresented then id in s.view.activationWaiting
        else (id in s.view.activationWaiting && id in CurrentDemand(s1))
             || (id in CurrentDemand(s1) && id !in CurrentDemand(s) && id in s.runs.jobs && s.runs.jobs[id].spec.timing != History)
  {
    hide Marked, DemandPlan.Demanded;
  }

  lemma ActivationOutcome(x: Step)
    requires x.s.view.presented
    ensures var y := RefreshActivation(x); var waiting := y.s.view.activationWaiting;
      && (waiting == {} ==> TooltipShown(y.acts))
      && (waiting != {} ==> y.acts == x.acts)
      && (waiting != {} ==> y.s.view.activationDeadline == Some(if x.s.view.activationDeadline.Some? then x.s.view.activationDeadline.value
                                                                else x.s.now + ACTIVATION_REFRESH_TIMEOUT))
  {
    hide Marked, Stale, IssuePublish, TooltipShown;
    var stale := Stale(x.s.runs.jobs);
    var waiting := x.s.view.activationWaiting + stale;
    var y := Step(MarkJobs(x.s, stale).(view := x.s.view.(activationWaiting := waiting)), x.acts);
    PublishMembers(y, TooltipActivated, None, 0, false, true);
  }

  lemma ShownDeadline(s: State)
    ensures ShowTooltip(s).now == s.now && ShowTooltip(s).view.presented
    ensures var v := ShowTooltip(s).view;
      v.activationDeadline.None? || v.activationDeadline == s.view.activationDeadline
      || (s.view.activationDeadline.None? && v.activationDeadline == Some(s.now + ACTIVATION_REFRESH_TIMEOUT))
  {
    hide Marked, DemandPlan.Demanded, Sampling;
  }

  /** A tooltip that comes up waits for exactly these jobs; without any it is published at once, with some nothing is,
      and the wait ends a tenth of a second later at the latest, or when an earlier wait does. */
  lemma PresentationAwaits(s: State, e: SchedulerEvent)
    requires s.lifecycle == Running && e == TooltipPresented(e.at, true) && !s.view.presented && EarlyRejection(s, e).None?
    ensures var out := Handle(s, e); var v := out.s.view;
      && (forall id :: id in v.activationWaiting <==> Awaits(s, e, id))
      && (v.activationWaiting == {} <==> exists a :: a in out.acts && a.PublishDisplay? && a.tooltip)
      && (v.activationWaiting != {} ==>
            v.activationDeadline.Some? && (v.activationDeadline == s.view.activationDeadline
                                           || v.activationDeadline == Some(e.at + ACTIVATION_REFRESH_TIMEOUT)))
  {
    hide Settle, SortActions, RefreshActivation, ShowTooltip, EarlyRejection, Mute, TooltipShown, Awaits;
    var s' := s.(now := e.at);
    var y := Apply(s', e).0;
    forall id
      ensures id in y.s.view.activationWaiting <==> Awaits(s, e, id)
    {
      ShownWaits(s', id);
      AwaitsNow(s, e, id);
    }
    ShownWaits(s', JobId(0, 0, 0));
    ShownDeadline(s');
    ActivationOutcome(Step(ShowTooltip(s'), []));
    SettleKeepsView(y, Accepted);
    if y.s.view.activationWaiting == {} {
      SettledSpeaks(y, s, e);
    } else {
      SettleMutes(y, Accepted);
      UnspokenStays(y, Settle(y, Accepted));
    }
  }

  lemma AwaitsNow(s: State, e: SchedulerEvent, id: JobId)
    ensures Awaits(s.(now := e.at), e, id) <==> Awaits(s, e, id)
  {
    hide WantsTooltipRefresh;
  }

  lemma SettleKeepsView(x: Step, d: EventDisposition)
    ensures Settle(x, d).s.view == x.s.view
  {
    if d == Accepted { SettleClocks(x); }
  }

  lemma UnspokenStays(x: Step, y: Step)
    requires x.acts == [] && Mute(x, y)
    ensures forall a :: a in SortActions(y.acts) ==> !a.PublishDisplay?
  {
    var tail :| y.acts == x.acts + tail && Unpublished(tail);
    assert y.acts == tail;
  }

  /** A tooltip shown again waits for what it still did and for the jobs that read metrics for it alone. */
  lemma ReactivationAwaits(s: State, e: SchedulerEvent)
    requires s.lifecycle == Running && e.TooltipReactivated? && s.view.presented && EarlyRejection(s, e).None?
    ensures var out := Handle(s, e); var v := out.s.view;
      && (forall id :: id in v.activationWaiting <==>
            id in s.view.activationWaiting || (id in s.runs.jobs && WantsTooltipRefresh(s.runs.jobs[id].spec)))
      && (v.activationWaiting == {} <==> exists a :: a in out.acts && a.PublishDisplay? && a.tooltip)
      && (v.activationWaiting != {} ==>
            v.activationDeadline == Some(if s.view.activationDeadline.Some? then s.view.activationDeadline.value
                                         else e.at + ACTIVATION_REFRESH_TIMEOUT))
  {
    hide Settle, SortActions, RefreshActivation, EarlyRejection, Mute, TooltipShown, WantsTooltipRefresh;
    var s' := s.(now := e.at);
    var y := Apply(s', e).0;
    ReactivatedSet(s');
    ActivationOutcome(Step(s', []));
    SettleKeepsView(y, Accepted);
    if y.s.view.activationWaiting == {} {
      SettledSpeaks(y, s, e);
    } else {
      SettleMutes(y, Accepted);
      UnspokenStays(y, Settle(y, Accepted));
    }
  }

  lemma ReactivatedSet(s: State)
    ensures forall id :: id in RefreshActivation(Step(s, [])).s.view.activationWaiting <==>
              id in s.view.activationWaiting || (id in s.runs.jobs && WantsTooltipRefresh(s.runs.jobs[id].spec))
  {
    hide Publish, WantsTooltipRefresh, Marked;
  }

  /** A page that comes up in a tooltip in effect waits for what is still wanted of the jobs waited for and for the jobs
      that only it wants; a presented tooltip is published at once exactly when there are none. */
  lemma PageAwaits(s: State, e: SchedulerEvent)
    requires s.lifecycle == Running && e.SelectedPageChanged? && EarlyRejection(s, e).None?
    requires e.page != s.view.selectedPage && s.view.effectivePresented && s.view.presented
    ensures var out := Handle(s, e); var v := out.s.view;
      && v.selectedPage == e.page
      && (forall id :: id in v.activationWaiting <==>
            (id in s.view.activationWaiting && Wanted(Viewed(s, e), id)) || (id in s.runs.jobs && NewlyWanted(s, e, id)))
      && (v.activationWaiting == {} <==> exists a :: a in out.acts && a.PublishDisplay? && a.tooltip)
      && (v.activationWaiting != {} ==>
            v.activationDeadline == Some(if s.view.activationDeadline.Some? then s.view.activationDeadline.value
                                         else e.at + ACTIVATION_REFRESH_TIMEOUT))
  {
    hide Settle, SortActions, ChangePage, EarlyRejection, Mute, TooltipShown, Wanted, Viewed;
    var s' := s.(now := e.at);
    var y := Apply(s', e).0;
    PageOutcome(s', e.page);
    forall id
      ensures Wanted(Viewed(s', e), id) == Wanted(Viewed(s, e), id)
      ensures Wanted(s', id) == Wanted(s, id)
    {
      WantedNow(s, e, id);
    }
    SettleKeepsView(y, Accepted);
    SettleMutes(y, Accepted);
    if y.s.view.activationWaiting == {} {
      SettledSpeaks(y, s, e);
    } else {
      UnpublishedStays(y, Settle(y, Accepted));
    }
  }

  lemma WantedNow(s: State, e: SchedulerEvent, id: JobId)
    ensures Wanted(Viewed(s.(now := e.at), e), id) == Wanted(Viewed(s, e), id) && Wanted(s.(now := e.at), id) == Wanted(s, id)
  {
  }

  lemma UnpublishedStays(x: Step, y: Step)
    requires Unpublished(x.acts) && Mute(x, y)
    ensures forall a :: a in SortActions(y.acts) ==> !a.PublishDisplay?
  {
    var tail :| y.acts == x.acts + tail && Unpublished(tail);
  }

  lemma PageOutcome(s: State, page: PageId)
    requires page != s.view.selectedPage && s.view.effectivePresented && s.view.presented
    ensures var y := ChangePage(Step(s, []), page); var e := SelectedPageChanged(s.now, page); var waiting := y.s.view.activationWaiting;
      && y.s.view.selectedPage == page
      && (forall id :: id in waiting <==>
            (id in s.view.activationWaiting && Wanted(Viewed(s, e), id)) || (id in s.runs.jobs && NewlyWanted(s, e, id)))
      && (waiting == {} ==> TooltipShown(y.acts))
      && (waiting != {} ==> Unpublished(y.acts))
      && (waiting != {} ==> y.s.view.activationDeadline == Some(if s.view.activationDeadline.Some? then s.view.activationDeadline.value
                                                                else s.now + ACTIVATION_REFRESH_TIMEOUT))
  {
    hide CancelDemandEnded, ActivateJobs, IssuePublish, CurrentDemand, TooltipShown, Wanted;
    var e := SelectedPageChanged(s.now, page);
    var v := Viewed(s, e);
    var before, after := CurrentDemand(s), CurrentDemand(v);
    var x2 := CancelDemandEnded(Step(v, []), before, after);
    EndedJobs(v, before, after);
    EndedUnpublished(Step(v, []), before, after);
    var s3 := ActivateJobs(x2.s, before, after, true);
    ActivatedView(x2.s, before, after);
    forall id
      ensures id in before <==> Wanted(s, id)
      ensures id in after <==> Wanted(v, id)
    {
      DemandIsWanted(s, id);
      DemandIsWanted(v, id);
    }
    PublishMembers(Step(s3, x2.acts), PageChanged, None, 0, false, true);
  }

  lemma EndedUnpublished(x: Step, before: set<JobId>, after: set<JobId>)
    requires x.acts == []
    ensures Unpublished(CancelDemandEnded(x, before, after).acts)
  {
    hide Moved, AddTickets, AllRested, PageWork;
  }

  lemma ActivatedView(s: State, before: set<JobId>, after: set<JobId>)
    ensures var v := ActivateJobs(s, before, after, true).view;
      && v.presented == s.view.presented && v.selectedPage == s.view.selectedPage
      && (forall id :: id in v.activationWaiting <==>
            (id in s.view.activationWaiting && id in after)
            || (id in after && id !in before && id in s.runs.jobs && s.runs.jobs[id].spec.timing != History))
      && (v.activationWaiting != {} ==> v.activationDeadline == Some(if s.view.activationDeadline.Some? then s.view.activationDeadline.value
                                                                     else s.now + ACTIVATION_REFRESH_TIMEOUT))
  {
    hide Marked;
  }

  /** A new configuration is published to the panel at once if the first paint is out. */
  lemma ReloadReachesPanel(s: State, e: SchedulerEvent)
    requires e.ConfigChanged? && Handle(s, e).disposition == Accepted && s.paint.firstPaintIssued
    ensures exists a :: a in Handle(s, e).acts && a.PublishDisplay? && a.panel && a.why == ConfigReload
  {
    hide Settle, SortActions, Keeps, Mute, Reconfigure, EarlyRejection;
    AcceptedIsNotEarly(s, e);
    var s' := s.(now := e.at);
    var y := Apply(s', e).0;
    ReconfigureSpeaks(s', e.config);
    SettleMutes(y, Accepted);
    MuteKeeps(y, Settle(y, Accepted));
    SortKeeps(Settle(y, Accepted));
    KeepsChain(y, Settle(y, Accepted), Step(Settle(y, Accepted).s, SortActions(Settle(y, Accepted).acts)));
    ToldIsKept(y, Step(Handle(s, e).s, Handle(s, e).acts));
  }

  lemma ToldIsKept(x: Step, y: Step)
    requires Keeps(x, y) && exists a :: a in x.acts && Tells(a, ConfigReload, None, 0)
    ensures exists a :: a in y.acts && a.PublishDisplay? && a.panel && a.why == ConfigReload
  {
    var a :| a in x.acts && Tells(a, ConfigReload, None, 0);
    assert a in y.acts;
  }

  lemma ReconfigureSpeaks(s: State, config: SchedulerConfig)
    requires s.paint.firstPaintIssued
    ensures exists a :: a in Reconfigure(Step(s, []), config).acts && Tells(a, ConfigReload, None, 0)
  {
    hide Mute, ReplaceJobs, ReanchorFastJobs, RefreshDemand, IssuePublish, Marked, DiscoveryJobs;
    var x1 := Step(Reset(s, config), []);
    var x2 := ReplaceJobs(x1, config.jobs, ConfigReplaced);
    ReplaceJobsMutes(x1, config.jobs, ConfigReplaced);
    var r := Step(ReanchorFastJobs(x2.s), x2.acts);
    ReanchorMutes(x2);
    var x3 := RefreshDemand(r, false);
    RefreshDemandMutes(r, false);
    MuteChain(x1, x2, r);
    MuteChain(x1, r, x3);
    MuteIssued(x1, x3);
    var s4 := MarkJobs(x3.s, DiscoveryJobs(x3.s));
    PublishMembers(Step(s4, x3.acts), ConfigReload, None, 0, true, s4.view.effectivePresented);
  }

  lemma MuteIssued(x: Step, y: Step)
    requires Mute(x, y)
    ensures y.s.paint.firstPaintIssued == x.s.paint.firstPaintIssued
  {
  }
}
