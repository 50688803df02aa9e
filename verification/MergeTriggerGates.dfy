/** The checks of an attempt, one after the other: while what one of them asks
    about stays as it is, no attempt gets past it. */
module MergeTriggerGates {
  import opened MergeTrigger
  import opened MergeTriggerEffects
  import opened MergeTriggerSafety
  import opened MergeTriggerLegs

  /** What can stand against a merge, in the order in which it is asked. */
  datatype Gate = OnTheList | OpenDispatch | FailedDispatch | StopOn | NothingPlaced | ProjectFrozen

  predicate Shut(s: State, g: Gate, t: nat) {
    match g
    case OnTheList => t in s.board.merged
    case OpenDispatch => t in s.board.dispatch && s.board.dispatch[t].phase.InFlight?
    case FailedDispatch => t in s.board.dispatch && s.board.dispatch[t].phase.Failed?
    case StopOn => s.stop.engaged
    case NothingPlaced => t !in s.board.placed
    case ProjectFrozen => t in s.board.dispatch && s.board.dispatch[t].project in s.projects.frozen
  }

  /** The stages in front of a gate. */
  predicate Before(pc: Pc, g: Gate) {
    || pc.Begun? || pc.HasBase?
    || (pc.NotMerged? && !g.OnTheList?)
    || (pc.DispatchFailed? && (g.FailedDispatch? || g.StopOn? || g.NothingPlaced? || g.ProjectFrozen?))
    || (pc.DispatchDone? && (g.StopOn? || g.NothingPlaced? || g.ProjectFrozen?))
    || (pc.EstopClear? && (g.NothingPlaced? || g.ProjectFrozen?))
    || ((pc.Taken? || pc.Resolved? || pc.Deferring?) && g.ProjectFrozen?)
  }

  /** The answers given at a gate or before it. */
  function Answers(g: Gate): set<Verdict> {
    match g
    case OnTheList => {NotArchivePipeline, MergedV}
    case OpenDispatch => {NotArchivePipeline, MergedV, WaitingDispatch}
    case FailedDispatch => {NotArchivePipeline, MergedV, SupersededV}
    case StopOn => {NotArchivePipeline, MergedV, WaitingDispatch, SupersededV, EstopHalted}
    case NothingPlaced =>
      {NotArchivePipeline, MergedV, WaitingDispatch, SupersededV, EstopHalted, WaitingChangeset}
    case ProjectFrozen =>
      {NotArchivePipeline, MergedV, WaitingDispatch, SupersededV, EstopHalted, WaitingChangeset, ParkedV,
       FrozenDeferred}
  }

  predicate Stopped(pc: Pc, g: Gate) { Before(pc, g) || (pc.Finished? && pc.verdict in Answers(g)) }

  /** The freeze check of attempt `a` reads the project. */
  predicate Reads(e: Event, a: nat, g: Gate) { g.ProjectFrozen? ==> e != CheckFrozen(a, false) }

  lemma TriggerStopped(s: State, e: Event, g: Gate)
    requires Enabled(s, e) && OfTrigger(e) && e.a < |s.attempts| == |Apply(s, e).attempts|
    requires Shut(s, g, s.attempts[e.a].task) && Stopped(s.attempts[e.a].pc, g)
    ensures Stopped(Apply(s, e).attempts[e.a].pc, g)
  {
    hide ApplyMerge, ApplyReplay, ApplyLegs;
  }

  lemma MergeStopped(s: State, e: Event, g: Gate)
    requires Enabled(s, e) && OfMerge(e) && e.a < |s.attempts| == |Apply(s, e).attempts| && AttemptOk(s, e.a)
    requires Shut(s, g, s.attempts[e.a].task) && Stopped(s.attempts[e.a].pc, g) && Reads(e, e.a, g)
    ensures Stopped(Apply(s, e).attempts[e.a].pc, g)
  {
    hide ApplyTrigger, ApplyReplay, ApplyLegs, EndingOf, Concluded, Frozen, Enqueued, HasTask, PlaceAfter;
  }

  lemma StepStopped(s: State, e: Event, g: Gate, a: nat)
    requires Inv(s) && Enabled(s, e) && !e.Restart? && a < |Apply(s, e).attempts| && Reads(e, a, g)
    requires a < |s.attempts| ==> Stopped(s.attempts[a].pc, g) && Shut(s, g, s.attempts[a].task)
    ensures Stopped(Apply(s, e).attempts[a].pc, g)
    ensures a < |s.attempts| ==> Apply(s, e).attempts[a].task == s.attempts[a].task
  {
    if OfTrigger(e) {
      TriggerAttempts(s, e);
      if e.a == a {
        TriggerStopped(s, e, g);
      }
    } else if OfMerge(e) {
      MergeAttempts(s, e);
      assert AttemptOk(s, e.a);
      if e.a == a {
        MergeStopped(s, e, g);
      }
    } else {
      OtherAttempts(s, e);
    }
    hide Apply, Enabled, Subject, Inv, Shut, Answers;
  }

  ghost predicate StaysShut(es: seq<Event>, more: seq<Event>, g: Gate, t: nat) {
    forall k :: 0 <= k < |more| ==> Shut(Run(es + more[..k]), g, t)
  }

  predicate Uneventful(more: seq<Event>, a: nat, g: Gate) {
    forall k :: 0 <= k < |more| ==> !more[k].Restart? && Reads(more[k], a, g)
  }

  /** Attempts are not lost, nor given another task, while the process lives. */
  lemma AttemptStays(s: State, e: Event, a: nat)
    requires Enabled(s, e) && !e.Restart? && a < |s.attempts|
    ensures a < |Apply(s, e).attempts| && Apply(s, e).attempts[a].task == s.attempts[a].task
  {
    if OfTrigger(e) {
      TriggerAttempts(s, e);
    } else if OfMerge(e) {
      MergeAttempts(s, e);
    } else {
      OtherAttempts(s, e);
    }
    hide Apply, Enabled, Subject;
  }

  /** While a gate stays shut for its task, an attempt that is in front of it, or
      begins later, stays in front of it or ends with an answer given there or
      before; and nothing is in its hands, or at least nothing it could merge. */
  lemma {:induction false} ShutGateHolds(es: seq<Event>, more: seq<Event>, g: Gate, a: nat)
    requires a < |Run(es + more).attempts| && Uneventful(more, a, g)
    requires StaysShut(es, more, g, Run(es + more).attempts[a].task)
    requires a < |Run(es).attempts| ==> Before(Run(es).attempts[a].pc, g)
    ensures var pc := Run(es + more).attempts[a].pc;
      && (Before(pc, g) || (pc.Finished? && pc.verdict in Answers(g)))
      && (!g.ProjectFrozen? ==> Carries(pc).None?) && !pc.Loaded? && !pc.InSerial? && !pc.Committed?
    decreases |more|
  {
    hide Apply, Enabled, Inv, Shut, Answers;
    if more == [] {
      assert es + more == es;
    } else {
      var front, e := more[..|more| - 1], more[|more| - 1];
      var s := Run(es + front);
      assert es + more == (es + front) + [e];
      RunSplits(es + front, e);
      RunKeepsInv(es + front);
      if Enabled(s, e) && a < |s.attempts| {
        AttemptStays(s, e, a);
      }
      assert forall k :: 0 <= k < |front| ==> front[..k] == more[..k];
      if a < |s.attempts| {
        ShutGateHolds(es, front, g, a);
      }
      if Enabled(s, e) {
        StepStopped(s, e, g, a);
      }
    }
  }

  // ----- Two gates that stay shut by themselves -----

  /** A dispatch that has ended, and a place on the merged list, are final. */
  lemma ShutForGood(s: State, e: Event, g: Gate, t: nat)
    requires Enabled(s, e) && !e.Restart? && (g.OnTheList? || g.FailedDispatch?) && Shut(s, g, t)
    ensures Shut(Apply(s, e), g, t)
  {
    if OfTrigger(e) {
      TriggerBoard(s, e);
    } else if OfMerge(e) {
      MergeBoard(s, e);
    } else if OfReplay(e) {
      ReplayBoard(s, e);
    } else {
      LegsLists(s, e);
      LegsMaps(s, e);
    }
    hide Apply;
  }

  lemma {:induction false} ShutFromNowOn(es: seq<Event>, more: seq<Event>, g: Gate, t: nat)
    requires (g.OnTheList? || g.FailedDispatch?) && Shut(Run(es), g, t)
    requires forall k :: 0 <= k < |more| ==> !more[k].Restart?
    ensures StaysShut(es, more, g, t) && Shut(Run(es + more), g, t)
    decreases |more|
  {
    hide Apply, Enabled, Shut;
    if more == [] {
      assert es + more == es;
    } else {
      var front, e := more[..|more| - 1], more[|more| - 1];
      ShutFromNowOn(es, front, g, t);
      assert es + more == (es + front) + [e];
      RunSplits(es + front, e);
      assert forall k :: 0 <= k < |front| ==> front[..k] == more[..k];
      if Enabled(Run(es + front), e) {
        ShutForGood(Run(es + front), e, g, t);
      }
    }
  }

  /** Once a task is on the merged list, an attempt at it that has not looked at
      the list yet never gets a placement into its hands, and ends as merged (or,
      where its base is not to be read, as no archive delivery). */
  lemma MergedIsLeftAlone(es: seq<Event>, more: seq<Event>, a: nat)
    requires forall k :: 0 <= k < |more| ==> !more[k].Restart?
    requires a < |Run(es + more).attempts| && Run(es + more).attempts[a].task in Run(es).board.merged
    requires a < |Run(es).attempts| ==> Run(es).attempts[a].pc.Begun? || Run(es).attempts[a].pc.HasBase?
    ensures var pc := Run(es + more).attempts[a].pc;
      && Carries(pc).None?
      && (pc.Begun? || pc.HasBase? || pc == Finished(MergedV) || pc == Finished(NotArchivePipeline))
  {
    ShutFromNowOn(es, more, OnTheList, Run(es + more).attempts[a].task);
    ShutGateHolds(es, more, OnTheList, a);
    hide Run;
  }

  /** A dispatch that has failed lets nothing through. */
  lemma FailedIsNotMerged(es: seq<Event>, more: seq<Event>, a: nat)
    requires forall k :: 0 <= k < |more| ==> !more[k].Restart?
    requires a < |Run(es + more).attempts| && Shut(Run(es), FailedDispatch, Run(es + more).attempts[a].task)
    requires a < |Run(es).attempts| ==> Before(Run(es).attempts[a].pc, FailedDispatch)
    ensures var pc := Run(es + more).attempts[a].pc;
      && Carries(pc).None?
      && (Before(pc, FailedDispatch) || pc == Finished(SupersededV) || pc == Finished(MergedV)
          || pc == Finished(NotArchivePipeline))
  {
    ShutFromNowOn(es, more, FailedDispatch, Run(es + more).attempts[a].task);
    ShutGateHolds(es, more, FailedDispatch, a);
    hide Run;
  }

  // ----- What the merged list is good for -----

  /** Nobody at work on `t` has got past the merged list. */
  predicate NobodyPast(s: State, t: nat) {
    forall a :: 0 <= a < |s.attempts| && s.attempts[a].task == t ==>
      s.attempts[a].pc.Finished? || Before(s.attempts[a].pc, OnTheList)
  }

  /** In the registry, or replaced there by a later registration. */
  predicate NeverTaken(s: State, p: nat) {
    p < |s.ledger.places| && (s.ledger.places[p].Placed? || s.ledger.places[p].Overwritten?)
  }

  lemma NobodyGetsPast(s: State, e: Event, t: nat)
    requires Inv(s) && Enabled(s, e) && !e.Restart? && t in s.board.merged && NobodyPast(s, t)
    ensures NobodyPast(Apply(s, e), t)
  {
    var n := Apply(s, e);
    forall a | 0 <= a < |n.attempts| && n.attempts[a].task == t
      ensures n.attempts[a].pc.Finished? || Before(n.attempts[a].pc, OnTheList)
    {
      if a < |s.attempts| {
        AttemptStays(s, e, a);
      }
      if a < |s.attempts| && s.attempts[a].pc.Finished? {
        FinishedStays(s, e, a);
      } else {
        StepStopped(s, e, OnTheList, a);
      }
    }
    hide Apply, Enabled, Inv;
  }

  lemma FinishedStays(s: State, e: Event, a: nat)
    requires Enabled(s, e) && !e.Restart? && a < |s.attempts| && s.attempts[a].pc.Finished?
    ensures a < |Apply(s, e).attempts| && Apply(s, e).attempts[a] == s.attempts[a]
  {
    if OfTrigger(e) {
      TriggerAttempts(s, e);
    } else if OfMerge(e) {
      MergeAttempts(s, e);
    } else {
      OtherAttempts(s, e);
    }
    hide Apply, Subject, Carries;
  }

  lemma NobodyTakes(s: State, e: Event, t: nat, p: nat)
    requires Inv(s) && NobodyPast(s, t) && p < |s.ledger.placements| && s.ledger.placements[p].task == t
    ensures !Takes(s, e, p)
  {
    if Enabled(s, e) && (e.Take? || e.TakeFailed?) {
      var x := s.attempts[e.a].task;
      assert x in s.board.placed ==> RegistryOk(s, x);
    }
    hide Inv;
  }

  /** What is not taken by then is not taken any more. */
  lemma StaysUntaken(s: State, e: Event, t: nat, p: nat)
    requires Inv(s) && Enabled(s, e) && !e.Restart? && NobodyPast(s, t)
    requires p < |Apply(s, e).ledger.placements| && Apply(s, e).ledger.placements[p].task == t
    requires p < |s.ledger.placements| ==> NeverTaken(s, p)
    ensures NeverTaken(Apply(s, e), p)
  {
    NewPlacements(s, e);
    assert Sizes(s);
    if p >= |s.ledger.placements| {
      NewIsPlaced(s, e);
      hide Apply, Enabled, Inv;
    } else if s.ledger.places[p].Overwritten? {
      RestStays(s, e, p);
      hide Apply, Enabled, Inv;
    } else {
      StepSizes(s, e);
      NobodyTakes(s, e, t, p);
      if Apply(s, e).ledger.places[p] != Placed {
        HowItLeaves(s, e, p);
      }
      if e.Register? {
        Replaced(s, e, p);
      }
      hide Apply, Inv;
    }
  }

  lemma Replaced(s: State, e: Event, p: nat)
    requires Enabled(s, e) && e.Register? && p < |s.ledger.places|
    ensures p < |Apply(s, e).ledger.places|
    ensures Apply(s, e).ledger.places[p] == s.ledger.places[p] || Apply(s, e).ledger.places[p] == Overwritten
  {
    hide ApplyTrigger, ApplyMerge, ApplyReplay;
  }

  lemma {:induction false} StillNobodyPast(es: seq<Event>, more: seq<Event>, t: nat)
    requires forall k :: 0 <= k < |more| ==> !more[k].Restart?
    requires t in Run(es).board.merged && NobodyPast(Run(es), t)
    ensures NobodyPast(Run(es + more), t)
    decreases |more|
  {
    hide Apply, Enabled, Inv, NobodyPast;
    if more == [] {
      assert es + more == es;
    } else {
      var front, e := more[..|more| - 1], more[|more| - 1];
      StillNobodyPast(es, front, t);
      assert es + more == (es + front) + [e];
      RunSplits(es + front, e);
      RunKeepsInv(es + front);
      ShutFromNowOn(es, front, OnTheList, t);
      if Enabled(Run(es + front), e) {
        NobodyGetsPast(Run(es + front), e, t);
      }
    }
  }

  lemma NotCommitted(s: State, p: nat)
    requires Inv(s) && NeverTaken(s, p)
    ensures forall i :: 0 <= i < |s.ledger.commits| ==> s.ledger.commits[i].pid != p
  {
    forall i | 0 <= i < |s.ledger.commits| ensures s.ledger.commits[i].pid != p {
      assert CommitOk(s, i);
    }
    hide Inv;
  }

  /** A task on the merged list with nobody past the list is done with: whatever
      is registered for it then, or lands later, is never taken, and no attempt,
      replay or resolver commits it. */
  lemma {:induction false} NothingMoreIsTaken(es: seq<Event>, more: seq<Event>, t: nat, p: nat)
    requires forall k :: 0 <= k < |more| ==> !more[k].Restart?
    requires t in Run(es).board.merged && NobodyPast(Run(es), t)
    requires p < |Run(es + more).ledger.placements| && Run(es + more).ledger.placements[p].task == t
    requires p < |Run(es).ledger.placements| ==> NeverTaken(Run(es), p)
    ensures NeverTaken(Run(es + more), p)
    ensures forall i :: 0 <= i < |Run(es + more).ledger.commits| ==> Run(es + more).ledger.commits[i].pid != p
    decreases |more|
  {
    hide Apply, Enabled, Inv, NeverTaken, NobodyPast;
    RunKeepsInv(es + more);
    if more == [] {
      assert es + more == es;
    } else {
      var front, e := more[..|more| - 1], more[|more| - 1];
      var s := Run(es + front);
      assert es + more == (es + front) + [e];
      RunSplits(es + front, e);
      RunKeepsInv(es + front);
      ShutFromNowOn(es, front, OnTheList, t);
      if Enabled(s, e) {
        NewPlacements(s, e);
      }
      StillNobodyPast(es, front, t);
      if p < |s.ledger.placements| {
        NothingMoreIsTaken(es, front, t, p);
      }
      if Enabled(s, e) {
        NobodyGetsPast(s, e, t);
        StaysUntaken(s, e, t, p);
      }
    }
    NotCommitted(Run(es + more), p);
  }
}
