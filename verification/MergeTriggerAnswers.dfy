/** Every answer of an attempt has the reason it stands for, and what cannot go on
    is parked; what is merged, superseded, handed over and parked. */
module MergeTriggerAnswers {
  import opened Wrappers
  import opened MergeTrigger
  import opened MergeTriggerEffects
  import opened MergeTriggerSerial
  import opened MergeTriggerSafety
  import opened MergeTriggerLegs
  import opened MergeTriggerGates

  // ----- Every answer has its reason -----

  /** The changeset in hand declares another base than the recorded one. */
  predicate OutOfDate(s: State, t: nat, p: nat) {
    p < |s.ledger.placements| && s.ledger.placements[p].changeset.Changes? && t in s.board.base
    && s.ledger.placements[p].changeset.base != s.board.base[t]
  }

  predicate GoesTo(n: State, p: nat, place: Place) { p < |n.ledger.places| && n.ledger.places[p] == place }

  /** The changeset in hand declares the recorded base. */
  predicate UpToDate(s: State, p: nat) {
    p < |s.ledger.placements| && s.ledger.placements[p].task in s.board.base
    && s.ledger.placements[p].changeset == Changes(s.board.base[s.ledger.placements[p].task])
  }

  /** The issue or the project cannot be read, the queue cannot be written, the
      changeset is corrupt, or git does not merge it. */
  predicate MustPark(s: State, e: Event, p: nat) {
    || (e.Resolve? && !e.ok) || (e.Defer? && !e.ok)
    || (p < |s.ledger.placements| && s.ledger.placements[p].changeset.Corrupt?)
    || (e.Merge? && UpToDate(s, p) && (e.result.Fails? || (e.result.Conflicts? && !e.result.auto)))
  }

  /** A placement of the task is in the queue of its project. */
  predicate TaskWaits(s: State, t: nat) {
    t in s.board.dispatch && HasTask(s.ledger, Queue(s.projects.queues, s.board.dispatch[t].project), t)
  }

  /** What an attempt at `t` with `hand` in its hands stands for when it ends with
      answer `v` by event `e`, which leads from `s` to `n`. */
  predicate Because(s: State, e: Event, n: State, t: nat, hand: Option<nat>, v: Verdict) {
    match v
    case NotArchivePipeline =>
      hand.None? && (t !in s.board.base || t !in s.board.dispatch || ((e.ReadBase? || e.ReadDispatch?) && !e.ok))
    case WaitingDispatch => hand.None? && Shut(s, OpenDispatch, t)
    case EstopHalted => hand.None? && Shut(s, StopOn, t)
    case WaitingChangeset => hand.None? && Shut(s, NothingPlaced, t)
    case SupersededV =>
      if hand.None? then
        && Shut(s, FailedDispatch, t) && t !in n.board.placed
        && (t in s.board.placed ==> GoesTo(n, s.board.placed[t], Superseded))
      else OutOfDate(s, t, hand.value) && GoesTo(n, hand.value, Superseded)
    case MergedV => t in n.board.merged && (hand.Some? ==> GoesTo(n, hand.value, MergedIn))
    case ParkedV => hand.Some? && GoesTo(n, hand.value, Parked) && MustPark(s, e, hand.value)
    case FrozenDeferred =>
      hand.Some? && GoesTo(n, hand.value, if TaskWaits(s, t) then Absorbed else Queued)
    case AutoResolveStarted => hand.Some? && GoesTo(n, hand.value, Auto)
  }

  /** An attempt about to withdraw the placement of a failed dispatch. */
  ghost predicate Withdraws(s: State) {
    forall a :: 0 <= a < |s.attempts| && s.attempts[a].pc.DispatchFailed? ==>
      Shut(s, FailedDispatch, s.attempts[a].task)
  }

  /** Event `e` ends attempt `a`. */
  predicate Ends(s: State, e: Event, a: nat) {
    Enabled(s, e) && a < |s.attempts| && !s.attempts[a].pc.Finished? && a < |Apply(s, e).attempts|
    && Apply(s, e).attempts[a].pc.Finished? && !e.Restart?
  }

  lemma TriggerReason(s: State, e: Event)
    requires Enabled(s, e) && OfTrigger(e) && e.a < |s.attempts| == |Apply(s, e).attempts|
    requires Withdraws(s) && Sizes(s)
      && (s.attempts[e.a].task in s.board.placed ==> RegistryOk(s, s.attempts[e.a].task))
    requires Apply(s, e).attempts[e.a].pc.Finished?
    ensures Because(s, e, Apply(s, e), s.attempts[e.a].task, None, Apply(s, e).attempts[e.a].pc.verdict)
    ensures Carries(s.attempts[e.a].pc).None?
  {
    hide ApplyMerge, ApplyReplay, ApplyLegs;
  }

  lemma MergeReason(s: State, e: Event)
    requires Enabled(s, e) && OfMerge(e) && e.a < |s.attempts| == |Apply(s, e).attempts| && AttemptOk(s, e.a)
      && Sizes(s)
    requires Apply(s, e).attempts[e.a].pc.Finished?
    ensures Because(s, e, Apply(s, e), s.attempts[e.a].task, Carries(s.attempts[e.a].pc),
      Apply(s, e).attempts[e.a].pc.verdict)
  {
    hide ApplyTrigger, ApplyReplay, ApplyLegs, Enqueued, HasTask, Frozen;
  }

  lemma StepReason(s: State, e: Event, a: nat)
    requires Inv(s) && Withdraws(s) && Ends(s, e, a)
    ensures Because(s, e, Apply(s, e), s.attempts[a].task, Carries(s.attempts[a].pc),
      Apply(s, e).attempts[a].pc.verdict)
  {
    if OfTrigger(e) {
      TriggerAttempts(s, e);
      if e.a == a {
        TriggerReason(s, e);
      }
    } else if OfMerge(e) {
      MergeAttempts(s, e);
      assert AttemptOk(s, e.a);
      if e.a == a {
        MergeReason(s, e);
      }
    } else {
      OtherAttempts(s, e);
    }
    hide Apply, Enabled, Subject, Inv, Because;
  }

  lemma StepWithdraws(s: State, e: Event)
    requires Enabled(s, e) && Withdraws(s)
    ensures Withdraws(Apply(s, e))
  {
    var n := Apply(s, e);
    forall a | 0 <= a < |n.attempts| && n.attempts[a].pc.DispatchFailed?
      ensures Shut(n, FailedDispatch, n.attempts[a].task)
    {
      WithdrawsOne(s, e, a);
    }
  }

  lemma MergeGoesOn(s: State, e: Event)
    requires Enabled(s, e) && OfMerge(e) && e.a < |s.attempts| == |Apply(s, e).attempts|
    ensures !Apply(s, e).attempts[e.a].pc.DispatchFailed?
  {
    hide ApplyTrigger, ApplyReplay, ApplyLegs, EndingOf, Concluded, Frozen, Enqueued, HasTask, PlaceAfter, VerdictAfter;
  }

  lemma WithdrawsOne(s: State, e: Event, a: nat)
    requires Enabled(s, e) && Withdraws(s) && a < |Apply(s, e).attempts| && Apply(s, e).attempts[a].pc.DispatchFailed?
    ensures Shut(Apply(s, e), FailedDispatch, Apply(s, e).attempts[a].task)
  {
    var n := Apply(s, e);
    if e.Restart? {
      RestartEmpty(s, e);
    } else {
      var t := n.attempts[a].task;
      if OfTrigger(e) {
        TriggerAttempts(s, e);
        TriggerMaps(s, e);
        hide ApplyMerge, ApplyReplay, ApplyLegs;
      } else if OfMerge(e) {
        MergeAttempts(s, e);
        MergeGoesOn(s, e);
        hide Apply, Enabled, Subject;
      } else {
        OtherAttempts(s, e);
        hide Apply, Enabled;
      }
      if a < |s.attempts| && Shut(s, FailedDispatch, t) {
        ShutForGood(s, e, FailedDispatch, t);
      }
    }
  }

  lemma {:induction false} RunWithdraws(es: seq<Event>)
    ensures Withdraws(Run(es))
  {
    hide Apply, Enabled, Withdraws;
    if es == [] {
      NobodyWithdraws();
    } else {
      RunWithdraws(es[..|es| - 1]);
      if Enabled(Run(es[..|es| - 1]), es[|es| - 1]) {
        StepWithdraws(Run(es[..|es| - 1]), es[|es| - 1]);
      }
    }
  }

  lemma NobodyWithdraws()
    ensures Withdraws(Init())
  {
  }

  /** An attempt that has answered did so at one event of the run, and for the
      reason that its answer stands for: at that moment the base or its reading was
      missing, the dispatch under way, the stop on, nothing registered, the dispatch
      failed or the changeset out of date; merged means that the task is on the list
      and the placement in hand, if any, merged in; and parked, deferred and handed
      over is what was in hand. */
  lemma {:induction false} AnswersHaveReasons(es: seq<Event>, a: nat) returns (k: nat)
    requires a < |Run(es).attempts| && Run(es).attempts[a].pc.Finished?
    ensures k < |es| && Ends(Run(es[..k]), es[k], a) && es[..k + 1] == es[..k] + [es[k]]
    ensures Because(Run(es[..k]), es[k], Run(es[..k + 1]), Run(es).attempts[a].task,
      Carries(Run(es[..k]).attempts[a].pc), Run(es).attempts[a].pc.verdict)
  {
    hide Apply, Enabled, Inv, Withdraws, Because;
    var before, e := es[..|es| - 1], es[|es| - 1];
    var s := Run(before);
    assert es == before + [e];
    RunSplits(before, e);
    if Ends(s, e, a) {
      RunKeepsInv(before);
      RunWithdraws(before);
      StepReason(s, e, a);
      AttemptStays(s, e, a);
      k := |es| - 1;
    } else {
      EndedBefore(s, e, a);
      k := AnswersHaveReasons(before, a);
      assert before[..k] == es[..k] && before[..k + 1] == es[..k + 1];
    }
  }

  lemma EndedBefore(s: State, e: Event, a: nat)
    requires a < |Step(s, e).attempts| && Step(s, e).attempts[a].pc.Finished? && !Ends(s, e, a)
    ensures a < |s.attempts| && s.attempts[a] == Step(s, e).attempts[a]
  {
    if Enabled(s, e) {
      if e.Restart? {
        RestartEmpty(s, e);
      } else if a < |s.attempts| {
        FinishedStays(s, e, a);
      } else {
        NewAttempt(s, e, a);
      }
    }
    hide Apply;
  }

  // ----- What cannot be read is parked -----

  /** Attempt `a` cannot read the issue or the project of the placement in its hands,
      cannot enter it into the queue, or finds its changeset corrupt. */
  predicate CannotGoOn(s: State, e: Event, a: nat) {
    && Enabled(s, e) && a < |s.attempts|
    && (e == Resolve(a, false) || e == Defer(a, false)
        || (e == Load(a) && s.ledger.placements[s.attempts[a].pc.pid].changeset.Corrupt?))
  }

  lemma ParksAtOnce(s: State, e: Event, a: nat)
    requires Inv(s) && CannotGoOn(s, e, a)
    ensures var p, n := Carries(s.attempts[a].pc).value, Apply(s, e);
      GoesTo(n, p, Parked) && a < |n.attempts| && n.attempts[a] == Attempt(s.attempts[a].task, Finished(ParkedV))
  {
    assert AttemptOk(s, a);
    assert Sizes(s);
    hide Inv, ApplyTrigger, ApplyReplay, ApplyLegs;
  }

  lemma ThenEnabled(s: State, e: Event, a: nat)
    requires CannotGoOn(s, e, a)
    ensures Enabled(s, e) && a < |s.attempts| && Carries(s.attempts[a].pc).Some?
  {
  }

  /** Then the placement is parked, for good, and so the attempt answers. */
  lemma {:induction false} ParkedForGood(es: seq<Event>, e: Event, more: seq<Event>, a: nat)
    requires CannotGoOn(Run(es), e, a) && forall k :: 0 <= k < |more| ==> !more[k].Restart?
    ensures var n := Run(es + [e] + more);
      && GoesTo(n, Carries(Run(es).attempts[a].pc).value, Parked)
      && a < |n.attempts| && n.attempts[a] == Attempt(Run(es).attempts[a].task, Finished(ParkedV))
    decreases |more|
  {
    hide Apply, Enabled, Inv, CannotGoOn;
    ThenEnabled(Run(es), e, a);
    if more == [] {
      assert es + [e] + more == es + [e];
      RunSplits(es, e);
      RunKeepsInv(es);
      ParksAtOnce(Run(es), e, a);
    } else {
      var front, f := more[..|more| - 1], more[|more| - 1];
      ParkedForGood(es, e, front, a);
      assert es + [e] + more == (es + [e] + front) + [f];
      RunSplits(es + [e] + front, f);
      RunKeepsInv(es + [e] + front);
      if Enabled(Run(es + [e] + front), f) {
        RestStays(Run(es + [e] + front), f, Carries(Run(es).attempts[a].pc).value);
        FinishedStays(Run(es + [e] + front), f, a);
      }
    }
  }

  lemma {:induction false} RestForGood(es: seq<Event>, more: seq<Event>, p: nat)
    requires p < |Run(es).ledger.places| && Settled(Run(es).ledger.places[p])
    ensures GoesTo(Run(es + more), p, Run(es).ledger.places[p])
    decreases |more|
  {
    hide Apply, Enabled, Inv, Settled;
    if more == [] {
      assert es + more == es;
    } else {
      var front, e := more[..|more| - 1], more[|more| - 1];
      RestForGood(es, front, p);
      assert es + more == (es + front) + [e];
      RunSplits(es + front, e);
      RunKeepsInv(es + front);
      if Enabled(Run(es + front), e) {
        RestStays(Run(es + front), e, p);
      }
    }
  }

  lemma ReplayParksAtOnce(s: State, r: nat)
    requires Inv(s) && Enabled(s, ReplayIssue(r, false))
    ensures var n := Apply(s, ReplayIssue(r, false));
      && GoesTo(n, ReplayCarries(s.replays[r].pc).value, Parked)
      && n.replays == s.replays[r := Replay(s.replays[r].project, Popping)]
  {
    assert ReplayOk(s, r);
    assert Sizes(s);
    hide Inv, ApplyTrigger, ApplyMerge, ApplyLegs;
  }

  /** What a replay cannot read is parked as well, and the replay goes on. */
  lemma ReplayParksForGood(es: seq<Event>, r: nat, more: seq<Event>)
    requires Enabled(Run(es), ReplayIssue(r, false))
    ensures var p, n := ReplayCarries(Run(es).replays[r].pc).value, Run(es + [ReplayIssue(r, false)]);
      && GoesTo(Run(es + [ReplayIssue(r, false)] + more), p, Parked)
      && n.replays == Run(es).replays[r := Replay(Run(es).replays[r].project, Popping)]
  {
    RunKeepsInv(es);
    RunSplits(es, ReplayIssue(r, false));
    ReplayParksAtOnce(Run(es), r);
    RestForGood(es + [ReplayIssue(r, false)], more, ReplayCarries(Run(es).replays[r].pc).value);
    hide Run, Apply, Inv;
  }

  // ----- The decision in the serial section -----

  /** What an attempt's merge makes of the placement in hand. */
  lemma MergeDecides(s: State, a: nat, result: MergeResult)
    requires Inv(s) && Enabled(s, Merge(a, result))
    ensures var p, t, n := s.attempts[a].pc.pid, s.attempts[a].task, Apply(s, Merge(a, result));
      var c := s.ledger.placements[p].changeset;
      && (GoesTo(n, p, MergedIn) <==> c.Absent? || (UpToDate(s, p) && result.Merges?))
      && (GoesTo(n, p, Superseded) <==> OutOfDate(s, t, p))
      && (GoesTo(n, p, Auto) <==> UpToDate(s, p) && result.Conflicts? && result.auto)
      && (GoesTo(n, p, Parked) <==>
          c.Corrupt? || (UpToDate(s, p) && (result.Fails? || (result.Conflicts? && !result.auto))))
      && (n.ledger.commits != s.ledger.commits <==> UpToDate(s, p) && result.Merges?)
      && (n.projects.frozen != s.projects.frozen ==> UpToDate(s, p) && result.Conflicts? && !result.auto)
      && (UpToDate(s, p) && result.Conflicts? && !result.auto && result.freezes ==> Shut(n, ProjectFrozen, t))
  {
    assert AttemptOk(s, a);
    assert Sizes(s);
    hide Inv, ApplyTrigger, ApplyReplay, ApplyLegs, VerdictAfter;
  }

  /** What becomes of a placement that was handed to the automatic resolver: merged in
      and committed with the base it declares, or parked, with its project frozen if the
      mark can be set; and either is final. */
  lemma ResolverDecides(es: seq<Event>, p: nat, freezes: bool, more: seq<Event>)
    requires Enabled(Run(es), ResolverGivesUp(p, freezes))
    ensures GoesTo(Run(es + [ResolverGivesUp(p, freezes)] + more), p, Parked)
    ensures freezes ==> Shut(Run(es + [ResolverGivesUp(p, freezes)]), ProjectFrozen, Run(es).ledger.placements[p].task)
    ensures Enabled(Run(es), ResolverCommits(p)) ==> GoesTo(Run(es + [ResolverCommits(p)] + more), p, MergedIn)
  {
    RunKeepsInv(es);
    ResolverEnds(Run(es), p, freezes);
    RunSplits(es, ResolverGivesUp(p, freezes));
    RestForGood(es + [ResolverGivesUp(p, freezes)], more, p);
    RunSplits(es, ResolverCommits(p));
    if Enabled(Run(es), ResolverCommits(p)) {
      RestForGood(es + [ResolverCommits(p)], more, p);
    }
    hide Run, Apply, Enabled, Inv;
  }

  lemma ResolverEnds(s: State, p: nat, freezes: bool)
    requires Inv(s) && Enabled(s, ResolverGivesUp(p, freezes))
    ensures GoesTo(Apply(s, ResolverGivesUp(p, freezes)), p, Parked)
    ensures freezes ==> Shut(Apply(s, ResolverGivesUp(p, freezes)), ProjectFrozen, s.ledger.placements[p].task)
    ensures Enabled(s, ResolverCommits(p)) ==> GoesTo(Apply(s, ResolverCommits(p)), p, MergedIn)
  {
    hide Inv, ApplyTrigger, ApplyMerge, ApplyLegs;
  }

  /** What a replay's merge makes of it: the same, but for a base that is not on
      record, and no conflict goes to the automatic resolver. */
  lemma ReplayDecides(s: State, r: nat, result: MergeResult)
    requires Inv(s) && Enabled(s, ReplayMerge(r, result))
    ensures var p, n := s.replays[r].pc.pid, Apply(s, ReplayMerge(r, result));
      var x := s.ledger.placements[p];
      && (GoesTo(n, p, MergedIn) <==> x.changeset.Absent? || (UpToDate(s, p) && result.Merges?))
      && (GoesTo(n, p, Superseded) <==> OutOfDate(s, x.task, p))
      && (GoesTo(n, p, Parked) <==>
          x.changeset.Corrupt? || (x.changeset.Changes? && x.task !in s.board.base)
          || (UpToDate(s, p) && !result.Merges?))
      && (n.ledger.commits != s.ledger.commits <==> UpToDate(s, p) && result.Merges?)
      && (n.replays[r].pc.Ended? <==> UpToDate(s, p) && result.Conflicts?)
      && (n.projects.frozen != s.projects.frozen ==> UpToDate(s, p) && result.Conflicts?)
      && (UpToDate(s, p) && result.Conflicts? && result.freezes ==> Shut(n, ProjectFrozen, x.task))
  {
    assert ReplayOk(s, r);
    assert Sizes(s);
    hide Inv, ApplyTrigger, ApplyMerge, ApplyLegs;
  }
}
