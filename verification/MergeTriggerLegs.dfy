/** No lost trigger: when both legs of a task and the emergency stop have come to
    rest, a landed placement has been taken, and by exactly one attempt. */
module MergeTriggerLegs {
  import opened Wrappers
  import opened MergeTrigger
  import opened MergeTriggerEffects
  import opened MergeTriggerPlaces
  import opened MergeTriggerSafety

  /** Attempt `a` on task `t` has not come to its end nor to the take yet. */
  predicate Pending(s: State, a: nat, t: nat) {
    && a < |s.attempts| && s.attempts[a].task == t
    && (var pc := s.attempts[a].pc;
        pc.Begun? || pc.HasBase? || pc.NotMerged? || pc.DispatchFailed? || pc.DispatchDone? || pc.EstopClear?)
  }

  ghost predicate Active(s: State, t: nat) { exists a :: Pending(s, a, t) }

  /** The emergency stop is on, or its end is still on the way to the retry. */
  predicate StopPending(s: State, t: nat) {
    s.stop.engaged || false in s.stop.sends || s.stop.shown || s.stop.dirty || s.stop.collecting || t in s.stop.todo
  }

  /** Somebody will still see to a registered placement of `t`. */
  ghost predicate Responsible(s: State, t: nat) {
    || t !in s.board.placed
    || t in s.board.merged
    || t !in s.board.dispatch
    || !s.board.dispatch[t].phase.Done?
    || t in s.board.owed
    || StopPending(s, t)
    || Active(s, t)
  }

  /** No store read about `t` fails, its base is on record before it lands, and
      the process lives on. */
  predicate CleanStep(s: State, e: Event, t: nat) {
    match e
    case Register(x, _) => x == t ==> t in s.board.base
    case FinishDispatch(x, _, sees) => x == t ==> sees
    case ReadBase(a, ok) => a < |s.attempts| && s.attempts[a].task == t ==> ok
    case ReadDispatch(a, ok) => a < |s.attempts| && s.attempts[a].task == t ==> ok
    case Restart(_) => false
    case _ => true
  }

  ghost predicate CleanRun(es: seq<Event>, t: nat) {
    forall k :: 0 <= k < |es| ==> CleanStep(Run(es[..k]), es[k], t)
  }

  ghost predicate Based(s: State, t: nat) { t in s.board.placed ==> t in s.board.base }

  // ----- Each step passes the responsibility on -----

  /** The parts of the board that an event of an attempt leaves alone. */
  lemma TriggerBoard(s: State, e: Event)
    requires Enabled(s, e) && OfTrigger(e)
    ensures var b, c := s.board, Apply(s, e).board;
      && c.base == b.base && c.dispatch == b.dispatch && c.merged == b.merged && c.owed == b.owed
      && (forall x :: x in c.placed ==> x in b.placed)
      && Apply(s, e).stop == s.stop
  {
    hide ApplyMerge, ApplyReplay, ApplyLegs;
  }

  /** The step of an attempt on a task whose placement is there to be taken. */
  lemma TriggerOwn(s: State, e: Event, t: nat)
    requires Enabled(s, e) && OfTrigger(e) && CleanStep(s, e, t) && Pending(s, e.a, t)
    requires t in s.board.placed && t !in s.board.merged && t in s.board.base && t in s.board.dispatch
    ensures var n := Apply(s, e);
      || t !in n.board.placed || !n.board.dispatch[t].phase.Done? || n.stop.engaged || Pending(n, e.a, t)
  {
    TriggerMaps(s, e);
    hide ApplyMerge, ApplyReplay, ApplyLegs;
  }

  lemma TriggerResponsible(s: State, e: Event, t: nat)
    requires Inv(s) && Enabled(s, e) && OfTrigger(e) && CleanStep(s, e, t) && Responsible(s, t) && Based(s, t)
    ensures Responsible(Apply(s, e), t)
  {
    TriggerBoard(s, e);
    TriggerAttempts(s, e);
    var n := Apply(s, e);
    if t in s.board.placed && t !in s.board.merged && t in s.board.dispatch {
      if Pending(s, e.a, t) {
        TriggerOwn(s, e, t);
      } else if Active(s, t) {
        var a :| Pending(s, a, t);
        hide Apply, Enabled;
        assert Pending(n, a, t);
      }
    }
    hide Apply, Enabled, Inv, Subject;
  }

  lemma MergeBoard(s: State, e: Event)
    requires Enabled(s, e) && OfMerge(e)
    ensures var b, c := s.board, Apply(s, e).board;
      && c.base == b.base && c.dispatch == b.dispatch && b.merged <= c.merged && c.owed == b.owed
          && c.placed == b.placed
      && Apply(s, e).stop == s.stop
      && e.a < |s.attempts| && !Pending(s, e.a, s.attempts[e.a].task)
  {
    hide ApplyTrigger, ApplyReplay, ApplyLegs, EndingOf, Concluded, Frozen, Enqueued, HasTask, VerdictAfter, PlaceAfter;
  }

  lemma ReplayBoard(s: State, e: Event)
    requires Enabled(s, e) && OfReplay(e) && !e.Restart?
    ensures var b, c := s.board, Apply(s, e).board;
      && c.base == b.base && c.dispatch == b.dispatch && b.merged <= c.merged && c.owed == b.owed
          && c.placed == b.placed
      && Apply(s, e).stop == s.stop && Apply(s, e).attempts == s.attempts
  {
    hide ApplyTrigger, ApplyMerge, ApplyLegs, EndingOf, Concluded, Frozen, Dequeued, PlaceAfter;
  }

  lemma LaterResponsible(s: State, e: Event, t: nat)
    requires Enabled(s, e) && (OfMerge(e) || OfReplay(e)) && !e.Restart? && Responsible(s, t)
    ensures Responsible(Apply(s, e), t)
  {
    var n := Apply(s, e);
    if OfMerge(e) {
      MergeBoard(s, e);
      MergeAttempts(s, e);
    } else {
      ReplayBoard(s, e);
    }
    hide Apply, Enabled, Subject;
    if Active(s, t) {
      var a :| Pending(s, a, t);
      assert Pending(n, a, t);
    }
  }

  lemma LegsAttempts(s: State, e: Event, t: nat)
    requires Enabled(s, e) && OfLegs(e)
    ensures Active(s, t) ==> Active(Apply(s, e), t)
    ensures (e.StartOwed? || e.WatcherRuns?) && e.t == t ==> Active(Apply(s, e), t)
  {
    OtherAttempts(s, e);
    var n := Apply(s, e);
    hide Apply, Enabled;
    if Active(s, t) {
      var a :| Pending(s, a, t);
      assert Pending(n, a, t);
    }
    if (e.StartOwed? || e.WatcherRuns?) && e.t == t {
      assert Pending(n, |s.attempts|, t);
    }
  }

  lemma LegsResponsible(s: State, e: Event, t: nat)
    requires Enabled(s, e) && OfLegs(e) && CleanStep(s, e, t) && Responsible(s, t) && Based(s, t)
    ensures Responsible(Apply(s, e), t)
  {
    LegsAttempts(s, e, t);
    hide ApplyTrigger, ApplyMerge, ApplyReplay, Active, RegisteredIn;
  }

  lemma StepBased(s: State, e: Event, t: nat)
    requires Enabled(s, e) && CleanStep(s, e, t) && Based(s, t)
    ensures Based(Apply(s, e), t)
  {
    StepMaps(s, e);
    if e.Register? {
      hide ApplyTrigger, ApplyMerge, ApplyReplay;
    } else {
      RegistryEffect(s, e);
      hide Apply, Enabled;
    }
  }

  lemma StepResponsible(s: State, e: Event, t: nat)
    requires Inv(s) && Enabled(s, e) && CleanStep(s, e, t) && Responsible(s, t) && Based(s, t)
    ensures Responsible(Apply(s, e), t)
  {
    hide Apply, Enabled, Responsible, Inv, Based;
    if OfTrigger(e) {
      TriggerResponsible(s, e, t);
    } else if OfLegs(e) {
      LegsResponsible(s, e, t);
    } else {
      LaterResponsible(s, e, t);
    }
  }

  lemma PrefixClean(es: seq<Event>, t: nat)
    requires CleanRun(es, t) && es != []
    ensures CleanRun(es[..|es| - 1], t) && CleanStep(Run(es[..|es| - 1]), es[|es| - 1], t)
  {
    hide Run, CleanStep;
    var before := es[..|es| - 1];
    forall k | 0 <= k < |before| ensures CleanStep(Run(before[..k]), before[k], t) {
      assert before[..k] == es[..k];
    }
  }

  lemma {:induction false} RunResponsible(es: seq<Event>, t: nat)
    requires CleanRun(es, t)
    ensures Responsible(Run(es), t) && Based(Run(es), t)
  {
    hide Apply, Enabled, CleanStep;
    if es != [] {
      var before, e := es[..|es| - 1], es[|es| - 1];
      PrefixClean(es, t);
      RunResponsible(before, t);
      RunKeepsInv(before);
      if Enabled(Run(before), e) {
        hide Responsible, Based, Inv;
        StepResponsible(Run(before), e, t);
        StepBased(Run(before), e, t);
      }
    }
  }

  // ----- Merged means that a placement was merged -----

  ghost predicate HasMerged(s: State, t: nat) {
    exists p: nat :: p < |s.ledger.places| && p < |s.ledger.placements| && s.ledger.placements[p].task == t
      && s.ledger.places[p] == MergedIn
  }

  /** Every task on the merged list, or about to be, has a merged placement. */
  ghost predicate MergedOk(s: State) {
    && (forall t :: t in s.board.merged ==> HasMerged(s, t))
    && (forall a :: 0 <= a < |s.attempts| && s.attempts[a].pc.Committed? ==> HasMerged(s, s.attempts[a].task))
    && (forall r :: 0 <= r < |s.replays| && s.replays[r].pc.ReplayCommitted? ==> HasMerged(s, s.replays[r].pc.task))
  }

  lemma HasMergedStays(s: State, e: Event, t: nat)
    requires Inv(s) && Enabled(s, e) && HasMerged(s, t)
    ensures HasMerged(Apply(s, e), t)
  {
    var p: nat :| p < |s.ledger.places| && p < |s.ledger.placements| && s.ledger.placements[p].task == t
      && s.ledger.places[p] == MergedIn;
    MergedStays(s, e, p);
    NewPlacements(s, e);
    hide Apply, Enabled, Inv;
    assert Apply(s, e).ledger.placements[p] == s.ledger.placements[p];
  }

  lemma MergeLists(s: State, e: Event, t: nat)
    requires Enabled(s, e) && OfMerge(e) && e.a < |s.attempts| && AttemptOk(s, e.a) && Sizes(s)
    ensures t in Apply(s, e).board.merged && t !in s.board.merged ==>
      (e.MarkMerged? && s.attempts[e.a].pc.Committed? && t == s.attempts[e.a].task) || HasMerged(Apply(s, e), t)
  {
    hide ApplyTrigger, ApplyReplay, ApplyLegs, Frozen, Enqueued, HasTask, VerdictAfter;
    var n := Apply(s, e);
    if e.Merge? {
      var p := s.attempts[e.a].pc.pid;
      assert t in n.board.merged && t !in s.board.merged ==>
        n.ledger.placements[p].task == t && n.ledger.places[p] == MergedIn;
    }
  }

  lemma MergeCommitted(s: State, e: Event)
    requires Enabled(s, e) && OfMerge(e) && e.a < |s.attempts| && AttemptOk(s, e.a) && Sizes(s)
    ensures e.a < |Apply(s, e).attempts|
    ensures Apply(s, e).attempts[e.a].pc.Committed? ==> HasMerged(Apply(s, e), s.attempts[e.a].task)
  {
    hide ApplyTrigger, ApplyReplay, ApplyLegs, Frozen, Enqueued, HasTask, VerdictAfter;
    var n := Apply(s, e);
    if e.Merge? {
      var p := s.attempts[e.a].pc.pid;
      assert n.attempts[e.a].pc.Committed? ==>
        n.ledger.placements[p].task == s.attempts[e.a].task && n.ledger.places[p] == MergedIn;
    }
  }

  lemma ReplayLists(s: State, e: Event, t: nat)
    requires Enabled(s, e) && OfReplay(e) && Sizes(s)
    ensures t in Apply(s, e).board.merged && t !in s.board.merged ==>
      (e.ReplayMark? && t == s.replays[e.r].pc.task) || HasMerged(Apply(s, e), t)
  {
    hide ApplyTrigger, ApplyMerge, ApplyLegs, Frozen, Dequeued;
    var n := Apply(s, e);
    if e.ReplayMerge? {
      var p := s.replays[e.r].pc.pid;
      assert t in n.board.merged && t !in s.board.merged ==>
        n.ledger.placements[p].task == t && n.ledger.places[p] == MergedIn;
    }
  }

  lemma ReplayCommits2(s: State, e: Event, r: nat)
    requires Enabled(s, e) && OfReplay(e) && Sizes(s) && r < |Apply(s, e).replays|
    ensures var n := Apply(s, e);
      n.replays[r].pc.ReplayCommitted? ==>
        (r < |s.replays| && s.replays[r] == n.replays[r]) || HasMerged(n, n.replays[r].pc.task)
  {
    hide ApplyTrigger, ApplyMerge, ApplyLegs, Frozen, Dequeued;
    var n := Apply(s, e);
    if e.ReplayMerge? && e.r == r {
      var p := s.replays[e.r].pc.pid;
      assert n.replays[r].pc.ReplayCommitted? ==>
        n.ledger.placements[p].task == n.replays[r].pc.task && n.ledger.places[p] == MergedIn;
    }
  }

  lemma LegsLists(s: State, e: Event)
    requires Enabled(s, e) && OfLegs(e)
    ensures Apply(s, e).board.merged == s.board.merged && Apply(s, e).replays == s.replays
  {
    hide RegisteredIn;
  }

  lemma StepMergedList(s: State, e: Event, t: nat)
    requires Inv(s) && MergedOk(s) && Enabled(s, e) && t in Apply(s, e).board.merged
    ensures HasMerged(Apply(s, e), t)
  {
    assert Sizes(s);
    if t in s.board.merged {
      HasMergedStays(s, e, t);
    } else if OfTrigger(e) {
      TriggerBoard(s, e);
    } else if OfMerge(e) {
      MergeBoard(s, e);
      assert AttemptOk(s, e.a);
      MergeLists(s, e, t);
      if e.MarkMerged? && t == s.attempts[e.a].task && s.attempts[e.a].pc.Committed? {
        HasMergedStays(s, e, t);
      }
    } else if OfReplay(e) {
      ReplayLists(s, e, t);
      if e.ReplayMark? && t == s.replays[e.r].pc.task {
        HasMergedStays(s, e, t);
      }
    } else {
      LegsLists(s, e);
    }
    hide Apply, Inv, HasMerged;
  }

  lemma StepCommitted(s: State, e: Event, a: nat)
    requires Inv(s) && MergedOk(s) && Enabled(s, e) && a < |Apply(s, e).attempts|
      && Apply(s, e).attempts[a].pc.Committed?
    ensures HasMerged(Apply(s, e), Apply(s, e).attempts[a].task)
  {
    assert Sizes(s);
    var n := Apply(s, e);
    if OfTrigger(e) {
      TriggerAttempts(s, e);
      TriggerNoCommit(s, e);
    } else if OfMerge(e) {
      MergeBoard(s, e);
      MergeAttempts(s, e);
      assert AttemptOk(s, e.a);
      MergeCommitted(s, e);
    } else if !e.Restart? {
      OtherAttempts(s, e);
    } else {
      RestartEmpty(s, e);
    }
    hide Apply, Enabled, Inv, Subject, HasMerged;
    if a < |s.attempts| && s.attempts[a] == n.attempts[a] {
      HasMergedStays(s, e, s.attempts[a].task);
    }
  }

  lemma RestartEmpty(s: State, e: Event)
    requires Enabled(s, e) && e.Restart?
    ensures Apply(s, e).attempts == [] && Apply(s, e).replays == [] && Apply(s, e).board.merged == {}
  {
  }

  lemma StepReplayCommitted(s: State, e: Event, r: nat)
    requires Inv(s) && MergedOk(s) && Enabled(s, e) && r < |Apply(s, e).replays|
      && Apply(s, e).replays[r].pc.ReplayCommitted?
    ensures HasMerged(Apply(s, e), Apply(s, e).replays[r].pc.task)
  {
    assert Sizes(s);
    var n := Apply(s, e);
    if OfReplay(e) {
      ReplayCommits2(s, e, r);
    } else {
      ReplaysEffect(s, e);
    }
    hide Apply, Inv, Subject, HasMerged;
    if r < |s.replays| && s.replays[r] == n.replays[r] {
      HasMergedStays(s, e, s.replays[r].pc.task);
    }
  }

  lemma TriggerNoCommit(s: State, e: Event)
    requires Enabled(s, e) && OfTrigger(e)
    ensures e.a < |Apply(s, e).attempts| && !Apply(s, e).attempts[e.a].pc.Committed?
  {
    hide ApplyMerge, ApplyReplay, ApplyLegs;
  }

  lemma {:induction false} RunMergedOk(es: seq<Event>)
    ensures MergedOk(Run(es))
  {
    hide Apply, Enabled, Inv, HasMerged;
    if es != [] {
      var before, e := es[..|es| - 1], es[|es| - 1];
      RunMergedOk(before);
      RunKeepsInv(before);
      var s := Run(before);
      if Enabled(s, e) {
        var n := Apply(s, e);
        forall t | t in n.board.merged ensures HasMerged(n, t) { StepMergedList(s, e, t); }
        forall a | 0 <= a < |n.attempts| && n.attempts[a].pc.Committed? ensures HasMerged(n, n.attempts[a].task) {
          StepCommitted(s, e, a);
        }
        forall r | 0 <= r < |n.replays| && n.replays[r].pc.ReplayCommitted? ensures HasMerged(n, n.replays[r].pc.task) {
          StepReplayCommitted(s, e, r);
        }
      }
    }
  }

  // ----- No lost trigger -----

  /** Both legs of `t` and the emergency stop have come to rest: the dispatch is
      done, no attempt is owed or under way, the stop is off and announced off,
      and the watcher has nothing left to do. */
  ghost predicate AtRest(s: State, t: nat) {
    && t in s.board.dispatch && s.board.dispatch[t].phase.Done?
    && t !in s.board.owed && !Active(s, t) && !StopPending(s, t)
  }

  /** At rest, a placement is left in the registry only if the task is merged
      already. */
  lemma NothingIsForgotten(es: seq<Event>, t: nat)
    requires CleanRun(es, t) && AtRest(Run(es), t)
    ensures t in Run(es).board.placed ==> t in Run(es).board.merged && HasMerged(Run(es), t)
  {
    RunResponsible(es, t);
    RunMergedOk(es);
    hide Run, Active;
  }

  ghost predicate PlacedOnce(s: State, t: nat, p: nat) {
    && p < |s.ledger.placements| && s.ledger.placements[p].task == t
    && forall q :: 0 <= q < |s.ledger.placements| && s.ledger.placements[q].task == t ==> q == p
  }

  /** Event `e` takes placement `p` out of the registry. */
  predicate Takes(s: State, e: Event, p: nat) {
    Enabled(s, e) && (e.Take? || e.TakeFailed?) && Subject(s, e) == Some(p)
  }

  lemma TakeNeedsPlaced(s: State, e: Event, p: nat)
    requires Inv(s) && Takes(s, e, p)
    ensures p < |s.ledger.places| && s.ledger.places[p] == Placed
    ensures p < |Apply(s, e).ledger.places| && Apply(s, e).ledger.places[p] != Placed
  {
    assert RegistryOk(s, s.attempts[e.a].task);
    assert PlaceOk(s, p);
    hide Inv, ApplyMerge, ApplyReplay, ApplyLegs;
  }

  /** What has left the registry does not come back to it. */
  lemma LeftStaysOut(s: State, e: Event, p: nat)
    requires Inv(s) && Enabled(s, e) && p < |s.ledger.places| && s.ledger.places[p] != Placed
    ensures p < |Apply(s, e).ledger.places| && Apply(s, e).ledger.places[p] != Placed
  {
    StepSizes(s, e);
    NewPlacements(s, e);
    if Apply(s, e).ledger.places[p] == Placed {
      StepPlace(s, e, p);
      assert PlaceOk(s, p);
      assert OnRegistry(Apply(s, e), p) && !OnRegistry(s, p);
      RegistryGain(s, e);
    }
    hide Inv, Apply, Enabled;
  }

  lemma RegistryGain(s: State, e: Event)
    requires Enabled(s, e)
    ensures forall x :: x in Apply(s, e).board.placed ==>
      (x in s.board.placed && Apply(s, e).board.placed[x] == s.board.placed[x])
        || Apply(s, e).board.placed[x] >= |s.ledger.placements|
  {
    if e.Register? || e.Restart? {
      hide ApplyTrigger, ApplyMerge;
    } else {
      RegistryEffect(s, e);
      hide Apply, Enabled;
    }
  }

  /** A placement leaves the registry by a take, by being replaced, or with the
      process. */
  lemma HowItLeaves(s: State, e: Event, p: nat)
    requires Inv(s) && Enabled(s, e) && p < |s.ledger.places| && s.ledger.places[p] == Placed
    requires p < |Apply(s, e).ledger.places| && Apply(s, e).ledger.places[p] != Placed
    ensures Takes(s, e, p) || e.Restart?
      || (e.Register? && p < |s.ledger.placements| && e.t == s.ledger.placements[p].task)
  {
    assert PlaceOk(s, p);
    if !e.Restart? && !e.Register? && Subject(s, e) != Some(p) {
      FramedPlace(s, e, p);
      Frame(s, e, p);
    } else if Subject(s, e) == Some(p) {
      LiveSubject(s, e, p);
    } else if e.Register? {
      hide ApplyTrigger, ApplyMerge, ApplyReplay;
    }
    hide Inv, Apply, Enabled, Subject;
  }

  lemma LiveSubject(s: State, e: Event, p: nat)
    requires Inv(s) && Enabled(s, e) && Subject(s, e) == Some(p) && p < |s.ledger.places|
      && s.ledger.places[p] == Placed
    ensures Takes(s, e, p)
  {
    SubjectIsHeld(s, e, p);
    assert PlaceOk(s, p);
    hide Inv, Subject, HeldBy, ReplayedBy, Waits;
  }

  /** Whose hands the subject of an event is in. */
  lemma SubjectIsHeld(s: State, e: Event, p: nat)
    requires Enabled(s, e) && Subject(s, e) == Some(p)
    ensures || Takes(s, e, p)
      || (exists a: nat :: HeldBy(s, a, p)) || (exists r: nat :: ReplayedBy(s, r, p))
          || (exists j: nat :: Waits(s, j, p))
      || (p < |s.ledger.places| && s.ledger.places[p].Auto?)
  {
    if OfMerge(e) {
      assert HeldBy(s, e.a, p);
    } else if e.Pop? {
      assert Waits(s, s.replays[e.r].project, p);
    } else if e.ReplayIssue? || e.ReplayMerge? {
      assert ReplayedBy(s, e.r, p);
    }
  }

  lemma RunSplits(es: seq<Event>, e: Event)
    ensures Run(es + [e]) == Step(Run(es), e)
  {
    assert (es + [e])[..|es|] == es;
  }

  /** From the take on, nobody else takes the placement. */
  lemma {:induction false} NotTakenAgain(es: seq<Event>, more: seq<Event>, p: nat)
    requires p < |Run(es).ledger.places| && Run(es).ledger.places[p] != Placed
    ensures p < |Run(es + more).ledger.places| && Run(es + more).ledger.places[p] != Placed
    decreases |more|
  {
    hide Apply, Enabled, Inv;
    if more == [] {
      assert es + more == es;
    } else {
      var before, e := es + more[..|more| - 1], more[|more| - 1];
      NotTakenAgain(es, more[..|more| - 1], p);
      assert es + more == before + [e];
      RunSplits(before, e);
      RunKeepsInv(before);
      if Enabled(Run(before), e) {
        LeftStaysOut(Run(before), e, p);
      }
    }
  }

  /** A placement that was registered alone and is no longer in the registry was
      taken, at one point of the run. */
  lemma {:induction false} TakenAt(es: seq<Event>, t: nat, p: nat) returns (k: nat)
    requires CleanRun(es, t) && PlacedOnce(Run(es), t, p)
    requires p < |Run(es).ledger.places| && Run(es).ledger.places[p] != Placed
    ensures k < |es| && Takes(Run(es[..k]), es[k], p)
  {
    hide Apply, Enabled, Inv, Subject, CleanStep;
    assert es != [];
    var before, e := es[..|es| - 1], es[|es| - 1];
    PrefixClean(es, t);
    RunKeepsInv(before);
    var s := Run(before);
    if !Enabled(s, e) {
      k := TakenAt(before, t, p);
      assert before[..k] == es[..k];
    } else {
      OnceBefore(s, e, t, p);
      if p < |s.ledger.places| && s.ledger.places[p] != Placed {
        k := TakenAt(before, t, p);
        assert before[..k] == es[..k];
      } else {
        LeavesByTake(s, e, t, p);
        k := |es| - 1;
      }
    }
  }

  lemma OnceBefore(s: State, e: Event, t: nat, p: nat)
    requires Inv(s) && Enabled(s, e) && PlacedOnce(Apply(s, e), t, p)
    requires p < |Apply(s, e).ledger.places| && Apply(s, e).ledger.places[p] != Placed
    ensures PlacedOnce(s, t, p) && p < |s.ledger.places|
  {
    NewPlacements(s, e);
    assert Sizes(s);
    if e.Register? && p >= |s.ledger.placements| {
      NewIsPlaced(s, e);
    }
    hide Apply, Enabled, Inv;
    assert forall q :: 0 <= q < |s.ledger.placements| ==> Apply(s, e).ledger.placements[q] == s.ledger.placements[q];
  }

  lemma NewIsPlaced(s: State, e: Event)
    requires Enabled(s, e) && e.Register? && Sizes(s)
    ensures |Apply(s, e).ledger.places| == |s.ledger.places| + 1
      && Apply(s, e).ledger.places[|s.ledger.places|] == Placed
  {
    hide ApplyTrigger, ApplyMerge, ApplyReplay;
  }

  lemma LeavesByTake(s: State, e: Event, t: nat, p: nat)
    requires Inv(s) && Enabled(s, e) && CleanStep(s, e, t) && PlacedOnce(Apply(s, e), t, p)
    requires p < |s.ledger.places| && s.ledger.places[p] == Placed
    requires p < |Apply(s, e).ledger.places| && Apply(s, e).ledger.places[p] != Placed
    ensures Takes(s, e, p)
  {
    HowItLeaves(s, e, p);
    NewPlacements(s, e);
    assert Sizes(s);
    if e.Register? {
      SecondIsAnother(s, e, t, p);
    }
    hide Apply, Enabled, Inv, Subject;
  }

  lemma SecondIsAnother(s: State, e: Event, t: nat, p: nat)
    requires Enabled(s, e) && e.Register? && p < |s.ledger.placements| && PlacedOnce(Apply(s, e), t, p)
    ensures e.t != t
  {
    NewPlacements(s, e);
    hide Apply, Enabled;
    assert Apply(s, e).ledger.placements[|s.ledger.placements|].task == e.t;
  }

  /** No lost trigger, no double take: at rest, the placement of a task that was
      placed once has been taken by exactly one attempt, whatever the order of the
      legs, the stop and the release re-run. */
  lemma TakenExactlyOnce(es: seq<Event>, t: nat, p: nat) returns (k: nat)
    requires CleanRun(es, t) && AtRest(Run(es), t) && PlacedOnce(Run(es), t, p)
    ensures t !in Run(es).board.placed
    ensures k < |es| && Takes(Run(es[..k]), es[k], p)
    ensures forall j :: 0 <= j < |es| && j != k ==> !Takes(Run(es[..j]), es[j], p)
  {
    RunKeepsInv(es);
    NothingIsForgotten(es, t);
    OnceMeansGone(Run(es), t, p);
    k := TakenAt(es, t, p);
    forall j | 0 <= j < |es| && j != k ensures !Takes(Run(es[..j]), es[j], p) {
      if j < k {
        NotBoth(es, j, k, p);
      } else {
        NotBoth(es, k, j, p);
      }
    }
  }

  lemma OnceMeansGone(s: State, t: nat, p: nat)
    requires Inv(s) && PlacedOnce(s, t, p)
    requires t in s.board.placed ==> HasMerged(s, t)
    ensures t !in s.board.placed && p < |s.ledger.places| && s.ledger.places[p] != Placed
  {
    assert PlaceOk(s, p);
    assert t in s.board.placed ==> RegistryOk(s, t);
    hide Inv;
  }

  lemma NotBoth(es: seq<Event>, j: nat, k: nat, p: nat)
    requires j < k < |es|
    ensures !(Takes(Run(es[..j]), es[j], p) && Takes(Run(es[..k]), es[k], p))
  {
    if Takes(Run(es[..j]), es[j], p) {
      RunKeepsInv(es[..j]);
      TakeNeedsPlaced(Run(es[..j]), es[j], p);
      assert es[..j + 1] == es[..j] + [es[j]];
      RunSplits(es[..j], es[j]);
      assert es[..k] == es[..j + 1] + es[j + 1..k];
      NotTakenAgain(es[..j + 1], es[j + 1..k], p);
      RunKeepsInv(es[..k]);
      hide Run, Apply, Enabled, Inv, Subject, Takes;
      NotTakenUnplaced(Run(es[..k]), es[k], p);
    }
  }

  lemma NotTakenUnplaced(s: State, e: Event, p: nat)
    requires Inv(s) && p < |s.ledger.places| && s.ledger.places[p] != Placed
    ensures !Takes(s, e, p)
  {
    if Takes(s, e, p) {
      TakeNeedsPlaced(s, e, p);
    }
  }
}
