/** What single events change and what they leave alone. */
module MergeTriggerEffects {
  import opened Wrappers
  import opened MergeTrigger

  /** The placement an event moves, if it moves exactly one. */
  function Subject(s: State, e: Event): Option<nat>
    requires Enabled(s, e)
  {
    match e
    case TakeFailed(a) => if s.attempts[a].task in s.board.placed then Some(s.board.placed[s.attempts[a].task])
      else None
    case Take(a) => if s.attempts[a].task in s.board.placed then Some(s.board.placed[s.attempts[a].task]) else None
    case Resolve(a, _) => Carries(s.attempts[a].pc)
    case CheckFrozen(a, _) => Carries(s.attempts[a].pc)
    case Defer(a, _) => Carries(s.attempts[a].pc)
    case Load(a) => Carries(s.attempts[a].pc)
    case Acquire(a) => Carries(s.attempts[a].pc)
    case Merge(a, _) => Carries(s.attempts[a].pc)
    case Pop(r, _) =>
      var q := Queue(s.projects.queues, s.replays[r].project);
      if q == [] then None else Some(q[0])
    case ReplayIssue(r, _) => ReplayCarries(s.replays[r].pc)
    case ReplayMerge(r, _) => ReplayCarries(s.replays[r].pc)
    case ResolverCommits(p) => Some(p)
    case ResolverGivesUp(p, _) => Some(p)
    case _ => None
  }

  /** A placement that is not the event's subject stays where it is. */
  ghost predicate SamePlaces(s: State, t: State, p: nat) {
    && p < |s.ledger.places| && p < |t.ledger.places| && t.ledger.places[p] == s.ledger.places[p]
    && (OnRegistry(t, p) <==> OnRegistry(s, p))
    && (forall a :: HeldBy(t, a, p) <==> HeldBy(s, a, p))
    && (forall r :: ReplayedBy(t, r, p) <==> ReplayedBy(s, r, p))
    && (forall j :: Waits(t, j, p) <==> Waits(s, j, p))
  }

  /** Any event but a registration and the end of the process. */
  predicate Framed(s: State, e: Event, p: nat)
    requires Enabled(s, e)
  {
    p < |s.ledger.places| && Subject(s, e) != Some(p) && !e.Register? && !e.Restart?
  }

  /** An event of attempt `a` changes that attempt alone, and it has nothing but
      the event's subject in hand, before and after. */
  ghost predicate OneAttempt(s: State, t: State, e: Event, a: nat)
    requires Enabled(s, e)
  {
    && a < |s.attempts| == |t.attempts|
    && t.attempts == s.attempts[a := Attempt(s.attempts[a].task, t.attempts[a].pc)]
    && (Carries(s.attempts[a].pc).Some? ==> Carries(s.attempts[a].pc) == Subject(s, e))
    && (Carries(t.attempts[a].pc).Some? ==> Carries(t.attempts[a].pc) == Subject(s, e))
  }

  lemma TriggerAttempts(s: State, e: Event)
    requires Enabled(s, e) && OfTrigger(e)
    ensures OneAttempt(s, Apply(s, e), e, e.a)
  {
    hide ApplyMerge, ApplyReplay, ApplyLegs;
  }

  lemma MergeAttempts(s: State, e: Event)
    requires Enabled(s, e) && OfMerge(e)
    ensures OneAttempt(s, Apply(s, e), e, e.a)
  {
    hide EndingOf, Concluded, Frozen, Enqueued, ProjectOf, HasTask, PlaceAfter, VerdictAfter, ApplyTrigger,
      ApplyReplay, ApplyLegs;
  }

  lemma OtherAttempts(s: State, e: Event)
    requires Enabled(s, e) && !OfTrigger(e) && !OfMerge(e) && !e.Restart?
    ensures Apply(s, e).attempts == if e.StartOwed? || e.WatcherRuns? then s.attempts + [Attempt(e.t, Begun)]
      else s.attempts
  {
    hide EndingOf, Concluded, Frozen, Dequeued, ProjectOf, PlaceAfter, VerdictAfter, ApplyTrigger, ApplyMerge;
  }

  lemma ReplaysEffect(s: State, e: Event)
    requires Enabled(s, e) && !e.Restart?
    ensures var t := Apply(s, e);
      if e.Pop? || e.ReplayIssue? || e.ReplayMerge? || e.ReplayMark? then
        && e.r < |s.replays| == |t.replays|
        && t.replays == s.replays[e.r := Replay(s.replays[e.r].project, t.replays[e.r].pc)]
        && (ReplayCarries(s.replays[e.r].pc).Some? ==> ReplayCarries(s.replays[e.r].pc) == Subject(s, e))
        && (ReplayCarries(t.replays[e.r].pc).Some? ==> ReplayCarries(t.replays[e.r].pc) == Subject(s, e))
      else if e.StartReplay?
        then t.replays == s.replays + [Replay(e.project, t.replays[|s.replays|].pc)]
          && ReplayCarries(t.replays[|s.replays|].pc).None?
      else t.replays == s.replays
  {
    hide EndingOf, Concluded, Frozen, Enqueued, Dequeued, ProjectOf, HasTask, PlaceAfter, VerdictAfter;
  }

  /** No placement but the subject gets another place. */
  ghost predicate OnePlace(s: State, t: State, e: Event)
    requires Enabled(s, e)
  {
    && t.ledger.placements == s.ledger.placements
    && |t.ledger.places| == |s.ledger.places|
    && (forall p :: 0 <= p < |s.ledger.places| && Subject(s, e) != Some(p) ==> t.ledger.places[p] == s.ledger.places[p])
  }

  lemma TriggerPlaces(s: State, e: Event)
    requires Enabled(s, e) && OfTrigger(e)
    ensures OnePlace(s, Apply(s, e), e)
  {
    hide ApplyMerge, ApplyReplay, ApplyLegs;
  }

  lemma MergePlaces(s: State, e: Event)
    requires Enabled(s, e) && OfMerge(e)
    ensures OnePlace(s, Apply(s, e), e)
  {
    hide EndingOf, Frozen, Enqueued, HasTask, PlaceAfter, VerdictAfter, ApplyTrigger, ApplyReplay, ApplyLegs;
  }

  lemma OtherPlaces(s: State, e: Event)
    requires Enabled(s, e) && !OfTrigger(e) && !OfMerge(e) && !e.Register? && !e.Restart?
    ensures OnePlace(s, Apply(s, e), e)
  {
    hide EndingOf, Frozen, Dequeued, PlaceAfter, VerdictAfter, ApplyTrigger, ApplyMerge;
  }

  /** Only a take removes from the registry. */
  lemma RegistryEffect(s: State, e: Event)
    requires Enabled(s, e) && !e.Register? && !e.Restart?
    ensures var t := Apply(s, e);
      t.board.placed ==
        if (e.TakeFailed? || e.Take?) && e.a < |s.attempts| then s.board.placed - {s.attempts[e.a].task}
          else s.board.placed
  {
    hide EndingOf, Concluded, Frozen, Enqueued, Dequeued, ProjectOf, HasTask, PlaceAfter, VerdictAfter, RegisteredIn;
  }

  lemma FrameHeld(s: State, e: Event, p: nat)
    requires Enabled(s, e) && Framed(s, e, p)
    ensures forall a :: HeldBy(Apply(s, e), a, p) <==> HeldBy(s, a, p)
  {
    if OfTrigger(e) {
      TriggerAttempts(s, e);
    } else if OfMerge(e) {
      MergeAttempts(s, e);
    } else {
      OtherAttempts(s, e);
    }
    hide Apply, Enabled, Subject;
  }

  lemma FrameReplayed(s: State, e: Event, p: nat)
    requires Enabled(s, e) && Framed(s, e, p)
    ensures forall r :: ReplayedBy(Apply(s, e), r, p) <==> ReplayedBy(s, r, p)
  {
    ReplaysEffect(s, e);
    hide Apply, Enabled, Subject;
  }

  lemma FrameQueued(s: State, e: Event, p: nat)
    requires Enabled(s, e) && Framed(s, e, p)
    ensures forall j :: Waits(Apply(s, e), j, p) <==> Waits(s, j, p)
  {
    hide EndingOf, Concluded, PlaceAfter, VerdictAfter;
  }

  lemma FrameRegistry(s: State, e: Event, p: nat)
    requires Enabled(s, e) && Framed(s, e, p) && Sizes(s)
    requires forall t :: t in s.board.placed ==> RegistryOk(s, t)
    ensures var t := Apply(s, e);
      && p < |t.ledger.places| && t.ledger.places[p] == s.ledger.places[p]
      && (OnRegistry(t, p) <==> OnRegistry(s, p))
  {
    if OfTrigger(e) {
      TriggerPlaces(s, e);
    } else if OfMerge(e) {
      MergePlaces(s, e);
    } else {
      OtherPlaces(s, e);
    }
    RegistryEffect(s, e);
    TakesSubject(s, e);
    hide Apply, Enabled, Subject;
  }

  lemma TakesSubject(s: State, e: Event)
    requires Enabled(s, e) && (e.Take? || e.TakeFailed? ==> e.a < |s.attempts|)
    ensures (e.Take? || e.TakeFailed?) && s.attempts[e.a].task in s.board.placed ==>
      Subject(s, e) == Some(s.board.placed[s.attempts[e.a].task])
  {
  }

  lemma Frame(s: State, e: Event, p: nat)
    requires Enabled(s, e) && Framed(s, e, p) && Sizes(s)
    requires forall t :: t in s.board.placed ==> RegistryOk(s, t)
    ensures SamePlaces(s, Apply(s, e), p)
  {
    FrameHeld(s, e, p);
    FrameReplayed(s, e, p);
    FrameQueued(s, e, p);
    FrameRegistry(s, e, p);
    hide Apply, Enabled;
  }

  /** Bases and projects are never changed. */
  ghost predicate MapsGrow(b: Board, c: Board) {
    && (forall x :: x in b.base ==> x in c.base && c.base[x] == b.base[x])
    && (forall x :: x in b.dispatch ==> x in c.dispatch && c.dispatch[x].project == b.dispatch[x].project)
  }

  /** What never changes about dispatches and registrations. */
  ghost predicate Grows(s: State, t: State) {
    && MapsGrow(s.board, t.board)
    && s.ledger.placements <= t.ledger.placements
    && |s.ledger.places| - |s.ledger.placements| == |t.ledger.places| - |t.ledger.placements|
  }

  predicate OfLegs(e: Event) { !OfTrigger(e) && !OfMerge(e) && !OfReplay(e) }

  lemma TriggerMaps(s: State, e: Event)
    requires Enabled(s, e) && OfTrigger(e)
    ensures Apply(s, e).board.base == s.board.base && Apply(s, e).board.dispatch == s.board.dispatch
  {
    hide ApplyMerge, ApplyReplay, ApplyLegs;
  }

  lemma MergeMaps(s: State, e: Event)
    requires Enabled(s, e) && OfMerge(e)
    ensures Apply(s, e).board.base == s.board.base && Apply(s, e).board.dispatch == s.board.dispatch
  {
    hide ApplyTrigger, ApplyReplay, ApplyLegs, EndingOf, Concluded, Frozen, Enqueued, ProjectOf, HasTask, VerdictAfter;
  }

  lemma ReplayMaps(s: State, e: Event)
    requires Enabled(s, e) && OfReplay(e)
    ensures Apply(s, e).board.base == s.board.base && Apply(s, e).board.dispatch == s.board.dispatch
  {
    hide ApplyTrigger, ApplyMerge, ApplyLegs, EndingOf, Concluded, Frozen, Dequeued, ProjectOf;
  }

  lemma LegsMaps(s: State, e: Event)
    requires Enabled(s, e) && OfLegs(e)
    ensures var b, c := s.board, Apply(s, e).board;
      && c.base == (if e.RecordBase? then b.base[e.t := e.base] else b.base)
      && (e.RecordBase? ==> e.t !in b.base) && (e.NewDispatch? ==> e.t !in b.dispatch)
          && (e.FinishDispatch? ==> e.t in b.dispatch)
      && c.dispatch == (
        if e.NewDispatch? then b.dispatch[e.t := Dispatch(e.project, InFlight)]
        else if e.FinishDispatch? then b.dispatch[e.t := b.dispatch[e.t].(phase := if e.success then Done else Failed)]
        else b.dispatch)
  {
    hide ApplyTrigger, ApplyMerge, ApplyReplay, RegisteredIn;
  }

  lemma StepMaps(s: State, e: Event)
    requires Enabled(s, e)
    ensures MapsGrow(s.board, Apply(s, e).board)
  {
    if OfTrigger(e) {
      TriggerMaps(s, e);
    } else if OfMerge(e) {
      MergeMaps(s, e);
    } else if OfReplay(e) {
      ReplayMaps(s, e);
    } else {
      LegsMaps(s, e);
    }
    hide Apply, Enabled;
  }

  lemma NewPlacements(s: State, e: Event)
    requires Enabled(s, e)
    ensures var l, m := s.ledger, Apply(s, e).ledger;
      && m.placements == (if e.Register? then l.placements + [Placement(e.t, e.changeset)] else l.placements)
      && |l.places| - |l.placements| == |m.places| - |m.placements|
    ensures e.Register? ==> e.t in s.board.dispatch
  {
    if OfTrigger(e) {
      TriggerPlaces(s, e);
      hide Apply;
    } else if OfMerge(e) {
      MergePlaces(s, e);
      hide Apply;
    } else if !e.Register? && !e.Restart? {
      OtherPlaces(s, e);
      hide Apply;
    }
  }

  lemma BoardGrows(s: State, e: Event)
    requires Enabled(s, e)
    ensures Grows(s, Apply(s, e))
  {
    StepMaps(s, e);
    NewPlacements(s, e);
    hide Apply, Enabled;
  }

  lemma KnownStays(s: State, t: State, p: nat)
    requires Grows(s, t) && Known(s.board, s.ledger, p) && Sizes(s)
    ensures Known(t.board, t.ledger, p) && ProjectOf(t.board, t.ledger, p) == ProjectOf(s.board, s.ledger, p)
    ensures t.ledger.placements[p] == s.ledger.placements[p]
  {
  }

  lemma StepSizes(s: State, e: Event)
    requires Sizes(s) && Enabled(s, e)
    ensures Sizes(Apply(s, e))
  {
    BoardGrows(s, e);
    NewPlacements(s, e);
    hide Apply, Enabled;
  }
}
