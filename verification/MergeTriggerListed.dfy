/** The merged list is complete: whatever an attempt or a replay has merged in is
    on it, as soon as nobody stands between the commit and the list. */
module MergeTriggerListed {
  import opened MergeTrigger
  import opened MergeTriggerEffects
  import opened MergeTriggerSafety
  import opened MergeTriggerLegs

  /** An attempt or a replay has committed a placement of `t` and is about to enter
      the task. */
  predicate AboutToList(s: State, t: nat) {
    || (exists a :: 0 <= a < |s.attempts| && s.attempts[a] == Attempt(t, Committed))
    || (exists r :: 0 <= r < |s.replays| && s.replays[r].pc == ReplayCommitted(t))
  }

  predicate Listed(s: State, t: nat) { t in s.board.merged || AboutToList(s, t) }

  ghost predicate ListedIfMerged(s: State, p: nat) {
    p < |s.ledger.places| && p < |s.ledger.placements| && s.ledger.places[p] == MergedIn ==>
      Listed(s, s.ledger.placements[p].task)
  }

  lemma MergeKeepsListed(s: State, e: Event, t: nat)
    requires Enabled(s, e) && OfMerge(e) && Listed(s, t)
    ensures Listed(Apply(s, e), t)
  {
    MergeBoard(s, e);
    MergeAttempts(s, e);
    ReplaysEffect(s, e);
    var n := Apply(s, e);
    if a :| 0 <= a < |s.attempts| && s.attempts[a] == Attempt(t, Committed) {
      if e.a == a {
        MarksItsTask(s, e);
      } else {
        assert n.attempts[a] == Attempt(t, Committed);
      }
    }
    hide Apply, Subject;
  }

  lemma MarksItsTask(s: State, e: Event)
    requires Enabled(s, e) && OfMerge(e) && e.a < |s.attempts| && s.attempts[e.a].pc.Committed?
    ensures s.attempts[e.a].task in Apply(s, e).board.merged
  {
  }

  lemma ReplayKeepsListed(s: State, e: Event, t: nat)
    requires Enabled(s, e) && OfReplay(e) && !e.Restart? && Listed(s, t)
    ensures Listed(Apply(s, e), t)
  {
    ReplayBoard(s, e);
    ReplaysEffect(s, e);
    var n := Apply(s, e);
    if r :| 0 <= r < |s.replays| && s.replays[r].pc == ReplayCommitted(t) {
      if e.ReplayMark? && e.r == r {
        assert t in n.board.merged;
      } else {
        StillCommitted(s, e, r);
      }
    }
    hide Apply, Subject;
  }

  lemma StillCommitted(s: State, e: Event, r: nat)
    requires Enabled(s, e) && OfReplay(e) && !e.Restart? && r < |s.replays| && s.replays[r].pc.ReplayCommitted?
    requires !(e.ReplayMark? && e.r == r)
    ensures r < |Apply(s, e).replays| && Apply(s, e).replays[r] == s.replays[r]
  {
    ReplaysEffect(s, e);
  }

  lemma OthersKeepListed(s: State, e: Event, t: nat)
    requires Enabled(s, e) && (OfTrigger(e) || OfLegs(e)) && Listed(s, t)
    ensures Listed(Apply(s, e), t)
  {
    var n := Apply(s, e);
    ReplaysEffect(s, e);
    if OfTrigger(e) {
      TriggerBoard(s, e);
      TriggerAttempts(s, e);
    } else {
      LegsLists(s, e);
      OtherAttempts(s, e);
    }
    if a :| 0 <= a < |s.attempts| && s.attempts[a] == Attempt(t, Committed) {
      assert n.attempts[a] == s.attempts[a];
    }
    hide Apply, Subject;
  }

  lemma ListedStays(s: State, e: Event, t: nat)
    requires Enabled(s, e) && !e.Restart? && Listed(s, t)
    ensures Listed(Apply(s, e), t)
  {
    hide Apply, Enabled, Listed;
    if OfMerge(e) {
      MergeKeepsListed(s, e, t);
    } else if OfReplay(e) {
      ReplayKeepsListed(s, e, t);
    } else {
      OthersKeepListed(s, e, t);
    }
  }

  /** Whoever merges a placement in enters its task, or is about to. */
  lemma MergingLists(s: State, e: Event, p: nat)
    requires Inv(s) && Enabled(s, e) && !e.Restart? && e != ResolverCommits(p)
    requires p < |s.ledger.places| && s.ledger.places[p] != MergedIn
    requires p < |Apply(s, e).ledger.places| && Apply(s, e).ledger.places[p] == MergedIn
    ensures Listed(Apply(s, e), s.ledger.placements[p].task)
  {
    assert Sizes(s);
    if OfMerge(e) {
      MergePlaces(s, e);
      MergeBoard(s, e);
      assert AttemptOk(s, e.a);
      hide Inv, Sizes;
      AttemptEnters(s, e, p);
    } else if OfReplay(e) {
      OtherPlaces(s, e);
      hide Inv, Sizes;
      ReplayEnters(s, e, p);
    } else {
      hide Inv, Sizes;
      OthersMergeNothing(s, e, p);
    }
  }

  lemma AttemptEnters(s: State, e: Event, p: nat)
    requires Enabled(s, e) && OfMerge(e) && e.a < |s.attempts| && AttemptOk(s, e.a)
    requires p < |s.ledger.places| == |s.ledger.placements| && s.ledger.places[p] != MergedIn
    requires p < |Apply(s, e).ledger.places| && Apply(s, e).ledger.places[p] == MergedIn
    ensures Listed(Apply(s, e), s.ledger.placements[p].task)
  {
    hide ApplyTrigger, ApplyReplay, ApplyLegs, Frozen, Enqueued, HasTask, VerdictAfter;
    var n := Apply(s, e);
    assert n.attempts[e.a] == Attempt(s.ledger.placements[p].task, Committed)
      || s.ledger.placements[p].task in n.board.merged;
  }

  lemma ReplayEnters(s: State, e: Event, p: nat)
    requires Enabled(s, e) && OfReplay(e) && !e.Restart? && e != ResolverCommits(p)
    requires p < |s.ledger.places| == |s.ledger.placements| && s.ledger.places[p] != MergedIn
    requires p < |Apply(s, e).ledger.places| && Apply(s, e).ledger.places[p] == MergedIn
    ensures Listed(Apply(s, e), s.ledger.placements[p].task)
  {
    hide ApplyTrigger, ApplyMerge, ApplyLegs, Frozen, Dequeued;
    var n := Apply(s, e);
    assert e.ReplayMerge? && s.replays[e.r].pc.pid == p;
    assert n.replays[e.r].pc == ReplayCommitted(s.ledger.placements[p].task)
      || s.ledger.placements[p].task in n.board.merged;
  }

  lemma OthersMergeNothing(s: State, e: Event, p: nat)
    requires Enabled(s, e) && (OfTrigger(e) || OfLegs(e)) && p < |s.ledger.places|
    requires p < |Apply(s, e).ledger.places| && Apply(s, e).ledger.places[p] == MergedIn
    ensures s.ledger.places[p] == MergedIn
  {
    hide ApplyMerge, ApplyReplay;
  }

  lemma StepListed(s: State, e: Event, p: nat)
    requires Inv(s) && Enabled(s, e) && !e.Restart? && e != ResolverCommits(p) && ListedIfMerged(s, p)
    ensures ListedIfMerged(Apply(s, e), p)
  {
    var n := Apply(s, e);
    NewPlacements(s, e);
    assert Sizes(s);
    hide Inv, Sizes, Listed;
    if p < |n.ledger.places| && p < |n.ledger.placements| && n.ledger.places[p] == MergedIn {
      if p >= |s.ledger.places| {
        NewIsPlaced(s, e);
      } else if s.ledger.places[p] == MergedIn {
        ListedStays(s, e, s.ledger.placements[p].task);
      } else {
        MergingLists(s, e, p);
      }
    }
    hide Apply;
  }

  /** While the process lives: a placement that is merged in, and not by the automatic
      resolver, has its task on the merged list, or about to be entered. */
  lemma {:induction false} MergedIsListed(es: seq<Event>, p: nat)
    requires forall k :: 0 <= k < |es| ==> !es[k].Restart? && es[k] != ResolverCommits(p)
    ensures ListedIfMerged(Run(es), p)
  {
    hide Apply, Enabled, Inv;
    if es != [] {
      var before, e := es[..|es| - 1], es[|es| - 1];
      MergedIsListed(before, p);
      RunKeepsInv(before);
      hide ListedIfMerged;
      if Enabled(Run(before), e) {
        StepListed(Run(before), e, p);
      }
    }
  }

  /** With no attempt or replay in between and no automatic resolution, a task is on
      the merged list exactly when a placement of it is merged in. */
  lemma ListedIff(es: seq<Event>, t: nat)
    requires forall k :: 0 <= k < |es| ==> !es[k].Restart? && !es[k].ResolverCommits?
    requires !AboutToList(Run(es), t)
    ensures t in Run(es).board.merged <==> HasMerged(Run(es), t)
  {
    RunMergedOk(es);
    if HasMerged(Run(es), t) {
      var p: nat :| p < |Run(es).ledger.places| && p < |Run(es).ledger.placements|
        && Run(es).ledger.placements[p].task == t && Run(es).ledger.places[p] == MergedIn;
      MergedIsListed(es, p);
    }
    hide Run, AboutToList;
  }
}
