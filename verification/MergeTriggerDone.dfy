/** The gate of the merge: nothing but the delivery of a dispatch that is done gets
    past the take. */
module MergeTriggerDone {
  import opened Wrappers
  import opened MergeTrigger
  import opened MergeTriggerEffects
  import opened MergeTriggerSafety

  predicate IsDone(b: Board, t: nat) { t in b.dispatch && b.dispatch[t].phase.Done? }

  /** Where a placement can get only by being taken for a merge. */
  predicate Past(place: Place) {
    place.Held? || place.Queued? || place.Absorbed? || place.Replaying? || place.MergedIn? || place.Parked?
      || place.Auto?
  }

  /** The attempt has found its dispatch done. */
  predicate Passed(pc: Pc) { pc.DispatchDone? || pc.EstopClear? || Carries(pc).Some? }

  ghost predicate GateOk(s: State) {
    && (forall a :: 0 <= a < |s.attempts| && Passed(s.attempts[a].pc) ==> IsDone(s.board, s.attempts[a].task))
    && (forall p :: 0 <= p < |s.ledger.places| && p < |s.ledger.placements| && Past(s.ledger.places[p]) ==>
          IsDone(s.board, s.ledger.placements[p].task))
  }

  /** A dispatch that is done stays so. */
  lemma DoneStays(s: State, e: Event, t: nat)
    requires Enabled(s, e) && IsDone(s.board, t)
    ensures IsDone(Apply(s, e).board, t)
  {
    if OfTrigger(e) {
      TriggerMaps(s, e);
    } else if OfMerge(e) {
      MergeMaps(s, e);
    } else if OfReplay(e) {
      ReplayMaps(s, e);
    } else {
      LegsMaps(s, e);
    }
    hide Apply;
  }

  lemma TriggerGate(s: State, e: Event)
    requires Enabled(s, e) && OfTrigger(e) && e.a < |s.attempts| == |Apply(s, e).attempts|
    requires Passed(s.attempts[e.a].pc) ==> IsDone(s.board, s.attempts[e.a].task)
    ensures Passed(Apply(s, e).attempts[e.a].pc) ==> IsDone(s.board, s.attempts[e.a].task)
  {
    hide ApplyMerge, ApplyReplay, ApplyLegs;
  }

  lemma MergeGate(s: State, e: Event)
    requires Enabled(s, e) && OfMerge(e) && e.a < |s.attempts| == |Apply(s, e).attempts|
    ensures Passed(Apply(s, e).attempts[e.a].pc) ==> Passed(s.attempts[e.a].pc)
  {
    hide ApplyTrigger, ApplyReplay, ApplyLegs, EndingOf, Concluded, Frozen, Enqueued, HasTask, VerdictAfter, PlaceAfter;
  }

  lemma StepAttempts(s: State, e: Event, a: nat)
    requires Enabled(s, e) && GateOk(s) && a < |Apply(s, e).attempts| && Passed(Apply(s, e).attempts[a].pc)
    ensures IsDone(Apply(s, e).board, Apply(s, e).attempts[a].task)
  {
    var t := Apply(s, e);
    if e.Restart? {
      hide ApplyTrigger, ApplyMerge, ApplyLegs;
    } else {
      if OfTrigger(e) {
        TriggerAttempts(s, e);
        TriggerGate(s, e);
      } else if OfMerge(e) {
        MergeAttempts(s, e);
        MergeGate(s, e);
      } else {
        OtherAttempts(s, e);
      }
      hide Apply, Enabled, Subject;
      DoneStays(s, e, t.attempts[a].task);
    }
  }

  /** The subject of a step behind the take has got past it before. */
  lemma SubjectIsPast(s: State, e: Event, p: nat)
    requires Inv(s) && Enabled(s, e) && Subject(s, e) == Some(p) && p < |s.ledger.places| && !OfTrigger(e)
    ensures Past(s.ledger.places[p])
  {
    assert PlaceOk(s, p);
    if OfMerge(e) {
      assert HeldBy(s, e.a, p);
    } else if e.Pop? {
      assert Waits(s, s.replays[e.r].project, p);
    } else if e.ReplayIssue? || e.ReplayMerge? {
      assert ReplayedBy(s, e.r, p);
    }
    hide Inv;
  }

  /** A placement that is taken for a merge is one of the attempt's task. */
  lemma TakenIsDone(s: State, e: Event, p: nat)
    requires Inv(s) && GateOk(s) && Enabled(s, e) && OfTrigger(e) && Subject(s, e) == Some(p)
    requires p < |s.ledger.placements| && p < |Apply(s, e).ledger.places| && Past(Apply(s, e).ledger.places[p])
    ensures IsDone(s.board, s.ledger.placements[p].task)
  {
    assert RegistryOk(s, s.attempts[e.a].task);
    hide Inv, ApplyMerge, ApplyReplay, ApplyLegs;
    assert Passed(s.attempts[e.a].pc) ==> IsDone(s.board, s.attempts[e.a].task);
  }

  /** What landing and the end of the process leave behind. */
  lemma PlacesLeft(s: State, e: Event, p: nat)
    requires Enabled(s, e) && (e.Register? || e.Restart?) && |s.ledger.places| == |s.ledger.placements|
    requires p < |Apply(s, e).ledger.places| && Past(Apply(s, e).ledger.places[p])
    ensures p < |s.ledger.places| && Past(s.ledger.places[p])
  {
    hide ApplyTrigger, ApplyMerge;
  }

  lemma WasPast(s: State, e: Event, p: nat)
    requires Inv(s) && GateOk(s) && Enabled(s, e) && p < |s.ledger.placements| == |s.ledger.places|
    requires p < |Apply(s, e).ledger.places| && Past(Apply(s, e).ledger.places[p])
    ensures IsDone(s.board, s.ledger.placements[p].task)
  {
    if e.Register? || e.Restart? {
      PlacesLeft(s, e, p);
    } else if Subject(s, e) == Some(p) {
      if OfTrigger(e) {
        TakenIsDone(s, e, p);
      } else {
        SubjectIsPast(s, e, p);
      }
    } else if OfTrigger(e) {
      TriggerPlaces(s, e);
    } else if OfMerge(e) {
      MergePlaces(s, e);
    } else {
      OtherPlaces(s, e);
    }
    hide Inv, Apply, Enabled, Subject;
  }

  lemma StepPlaces(s: State, e: Event, p: nat)
    requires Inv(s) && GateOk(s) && Enabled(s, e) && p < |Apply(s, e).ledger.placements|
    requires p < |Apply(s, e).ledger.places| && Past(Apply(s, e).ledger.places[p])
    ensures IsDone(Apply(s, e).board, Apply(s, e).ledger.placements[p].task)
  {
    NewPlacements(s, e);
    assert Sizes(s);
    if p >= |s.ledger.places| {
      NewIsNotPast(s, e);
    }
    hide Inv, GateOk, Apply, Enabled;
    WasPast(s, e, p);
    DoneStays(s, e, s.ledger.placements[p].task);
  }

  lemma NewIsNotPast(s: State, e: Event)
    requires Enabled(s, e) && e.Register? && |s.ledger.places| == |s.ledger.placements|
    ensures |Apply(s, e).ledger.places| == |s.ledger.places| + 1 && !Past(Apply(s, e).ledger.places[|s.ledger.places|])
  {
    hide ApplyTrigger, ApplyMerge, ApplyReplay;
  }

  lemma {:induction false} RunGateOk(es: seq<Event>)
    ensures GateOk(Run(es))
  {
    hide Apply, Enabled, Inv;
    if es != [] {
      var before, e := es[..|es| - 1], es[|es| - 1];
      RunGateOk(before);
      RunKeepsInv(before);
      var s := Run(before);
      if Enabled(s, e) {
        var t := Apply(s, e);
        forall a | 0 <= a < |t.attempts| && Passed(t.attempts[a].pc) ensures IsDone(t.board, t.attempts[a].task) {
          hide GateOk;
          StepAttempts(s, e, a);
        }
        forall p | 0 <= p < |t.ledger.places| && p < |t.ledger.placements| && Past(t.ledger.places[p])
          ensures IsDone(t.board, t.ledger.placements[p].task)
        {
          hide GateOk;
          StepPlaces(s, e, p);
        }
      }
    }
  }

  /** In every run: a delivery that is in an attempt's hands, queued, in a replay's
      hands, with the automatic resolver, parked or merged is that of a dispatch that
      is done, and so is every commit. A failed or cancelled dispatch, or one still
      in flight, is never merged. */
  lemma OnlyDoneIsMerged(es: seq<Event>)
    ensures var s := Run(es);
      && (forall p :: 0 <= p < |s.ledger.places| && p < |s.ledger.placements| && Past(s.ledger.places[p]) ==>
            IsDone(s.board, s.ledger.placements[p].task))
      && (forall i :: 0 <= i < |s.ledger.commits| ==>
            var p := s.ledger.commits[i].pid; p < |s.ledger.placements| && IsDone(s.board, s.ledger.placements[p].task))
  {
    RunGateOk(es);
    RunKeepsInv(es);
    hide Run;
    var s := Run(es);
    forall i | 0 <= i < |s.ledger.commits|
      ensures var p := s.ledger.commits[i].pid;
        p < |s.ledger.placements| && IsDone(s.board, s.ledger.placements[p].task)
    {
      assert CommitOk(s, i);
      assert Past(s.ledger.places[s.ledger.commits[i].pid]);
    }
  }
}
