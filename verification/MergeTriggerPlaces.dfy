/** Every event keeps each placement in one place, the registry in step with
    the places, and the queues in order. */
module MergeTriggerPlaces {
  import opened Wrappers
  import opened MergeTrigger
  import opened MergeTriggerEffects

  lemma FramedPlace(s: State, e: Event, p: nat)
    requires Inv(s) && Enabled(s, e) && Framed(s, e, p)
    ensures p < |Apply(s, e).ledger.places| && PlaceOk(Apply(s, e), p)
  {
    assert PlaceOk(s, p);
    Frame(s, e, p);
    BoardGrows(s, e);
    var t := Apply(s, e);
    if Known(s.board, s.ledger, p) {
      KnownStays(s, t, p);
    }
    hide Inv, Apply, Enabled, Subject, OnRegistry, HeldBy, ReplayedBy, Waits, Grows;
  }

  /** The parts of `PlaceOk`. */
  ghost predicate HeldRight(s: State, p: nat)
    requires p < |s.ledger.places|
  {
    forall a :: HeldBy(s, a, p) <==> s.ledger.places[p] == Held(a)
  }

  ghost predicate ReplayedRight(s: State, p: nat)
    requires p < |s.ledger.places|
  {
    forall r :: ReplayedBy(s, r, p) <==> s.ledger.places[p] == Replaying(r)
  }

  ghost predicate QueuedRight(s: State, p: nat)
    requires p < |s.ledger.places|
  {
    && (forall j :: Waits(s, j, p) ==>
        s.ledger.places[p] == Queued && Known(s.board, s.ledger, p) && ProjectOf(s.board, s.ledger, p) == j)
    && (s.ledger.places[p] == Queued ==> Known(s.board, s.ledger, p) && Waits(s, ProjectOf(s.board, s.ledger, p), p))
  }

  ghost predicate RegisteredRight(s: State, p: nat)
    requires p < |s.ledger.places|
  {
    OnRegistry(s, p) <==> s.ledger.places[p] == Placed
  }

  lemma PartsOf(s: State, p: nat)
    requires p < |s.ledger.places|
    ensures PlaceOk(s, p) <==> HeldRight(s, p) && ReplayedRight(s, p) && QueuedRight(s, p) && RegisteredRight(s, p)
  {
    hide HeldBy, ReplayedBy, Waits, OnRegistry, ProjectOf;
  }

  /** A placement just taken. */
  lemma TriggerSubject(s: State, e: Event, p: nat)
    requires p < |s.ledger.places| && PlaceOk(s, p) && (forall t :: t in s.board.placed ==> RegistryOk(s, t))
    requires Enabled(s, e) && OfTrigger(e) && Subject(s, e) == Some(p)
    ensures p < |Apply(s, e).ledger.places| && PlaceOk(Apply(s, e), p)
  {
    var t := Apply(s, e);
    assert RegistryOk(s, s.attempts[e.a].task);
    hide ApplyMerge, ApplyReplay, ApplyLegs;
    forall a ensures HeldBy(t, a, p) <==> t.ledger.places[p] == Held(a) {
      assert HeldBy(s, a, p) <==> s.ledger.places[p] == Held(a);
    }
    forall r ensures ReplayedBy(t, r, p) <==> t.ledger.places[p] == Replaying(r) {
      assert ReplayedBy(s, r, p) <==> s.ledger.places[p] == Replaying(r);
    }
    forall j ensures !Waits(t, j, p) {
      assert !Waits(s, j, p);
    }
  }

  lemma MergeHeld(s: State, e: Event, p: nat)
    requires p < |s.ledger.places| && HeldRight(s, p)
    requires Enabled(s, e) && OfMerge(e) && Subject(s, e) == Some(p)
    ensures p < |Apply(s, e).ledger.places| && HeldRight(Apply(s, e), p)
  {
    var t := Apply(s, e);
    assert HeldBy(s, e.a, p);
    hide ApplyTrigger, ApplyReplay, ApplyLegs, EndingOf, Frozen, Enqueued, HasTask, VerdictAfter;
    forall a ensures HeldBy(t, a, p) <==> t.ledger.places[p] == Held(a) {
      assert HeldBy(s, a, p) <==> s.ledger.places[p] == Held(a);
    }
  }

  lemma MergeOthers(s: State, e: Event, p: nat)
    requires p < |s.ledger.places| && s.ledger.places[p].Held? && RegisteredRight(s, p) && ReplayedRight(s, p)
    requires Enabled(s, e) && OfMerge(e) && Subject(s, e) == Some(p)
    ensures p < |Apply(s, e).ledger.places| && RegisteredRight(Apply(s, e), p) && ReplayedRight(Apply(s, e), p)
  {
    var t := Apply(s, e);
    hide ApplyTrigger, ApplyReplay, ApplyLegs, EndingOf, Frozen, Enqueued, HasTask, VerdictAfter;
    assert t.replays == s.replays;
    forall r ensures ReplayedBy(t, r, p) <==> t.ledger.places[p] == Replaying(r) {
      assert ReplayedBy(s, r, p) <==> s.ledger.places[p] == Replaying(r);
    }
  }

  lemma MergeQueued(s: State, e: Event, p: nat)
    requires p < |s.ledger.places| && s.ledger.places[p].Held? && QueuedRight(s, p)
    requires Enabled(s, e) && OfMerge(e) && Subject(s, e) == Some(p)
    ensures p < |Apply(s, e).ledger.places| && QueuedRight(Apply(s, e), p)
  {
    var t := Apply(s, e);
    hide ApplyTrigger, ApplyReplay, ApplyLegs, EndingOf, VerdictAfter;
    forall j
      ensures Waits(t, j, p) ==>
        t.ledger.places[p] == Queued && Known(t.board, t.ledger, p) && ProjectOf(t.board, t.ledger, p) == j
    {
      assert !Waits(s, j, p);
    }
  }

  lemma MergeSubject(s: State, e: Event, p: nat)
    requires p < |s.ledger.places| && PlaceOk(s, p)
    requires Enabled(s, e) && OfMerge(e) && Subject(s, e) == Some(p)
    ensures p < |Apply(s, e).ledger.places| && PlaceOk(Apply(s, e), p)
  {
    assert HeldBy(s, e.a, p);
    hide Apply, Enabled, Subject;
    PartsOf(s, p);
    MergeHeld(s, e, p);
    MergeOthers(s, e, p);
    MergeQueued(s, e, p);
    PartsOf(Apply(s, e), p);
  }

  lemma ReplayHeld(s: State, e: Event, p: nat)
    requires p < |s.ledger.places| && !s.ledger.places[p].Held? && !s.ledger.places[p].Placed? && HeldRight(s, p)
      && RegisteredRight(s, p)
    requires Enabled(s, e) && OfReplay(e) && Subject(s, e) == Some(p)
    ensures p < |Apply(s, e).ledger.places| && HeldRight(Apply(s, e), p) && RegisteredRight(Apply(s, e), p)
  {
    var t := Apply(s, e);
    hide ApplyTrigger, ApplyMerge, ApplyLegs, EndingOf, Frozen, Dequeued;
    assert t.attempts == s.attempts;
    forall a ensures HeldBy(t, a, p) <==> t.ledger.places[p] == Held(a) {
      assert HeldBy(s, a, p) <==> s.ledger.places[p] == Held(a);
    }
  }

  lemma ReplayReplayed(s: State, e: Event, p: nat)
    requires p < |s.ledger.places| && ReplayedRight(s, p)
    requires Enabled(s, e) && OfReplay(e) && Subject(s, e) == Some(p)
    requires e.Pop? ==> s.ledger.places[p] == Queued
    ensures p < |Apply(s, e).ledger.places| && ReplayedRight(Apply(s, e), p)
  {
    var t := Apply(s, e);
    assert e.ReplayIssue? || e.ReplayMerge? ==> ReplayedBy(s, e.r, p);
    hide ApplyTrigger, ApplyMerge, ApplyLegs, EndingOf, Frozen, Dequeued;
    forall r ensures ReplayedBy(t, r, p) <==> t.ledger.places[p] == Replaying(r) {
      assert ReplayedBy(s, r, p) <==> s.ledger.places[p] == Replaying(r);
    }
  }

  lemma ReplayQueued(s: State, e: Event, p: nat)
    requires p < |s.ledger.places| && QueuedRight(s, p)
    requires Enabled(s, e) && OfReplay(e) && Subject(s, e) == Some(p)
    requires e.Pop? ==> QueueOk(s, s.replays[e.r].project)
    requires !e.Pop? ==> s.ledger.places[p] != Queued
    ensures p < |Apply(s, e).ledger.places| && QueuedRight(Apply(s, e), p)
  {
    var t := Apply(s, e);
    hide ApplyTrigger, ApplyMerge, ApplyLegs, EndingOf;
    forall j
      ensures Waits(t, j, p) ==>
        t.ledger.places[p] == Queued && Known(t.board, t.ledger, p) && ProjectOf(t.board, t.ledger, p) == j
    {
      assert Waits(s, j, p) ==> s.ledger.places[p] == Queued && ProjectOf(s.board, s.ledger, p) == j;
      assert e.Pop? ==> Waits(s, s.replays[e.r].project, p);
    }
  }

  lemma ReplaySubject(s: State, e: Event, p: nat)
    requires p < |s.ledger.places| && PlaceOk(s, p)
    requires Enabled(s, e) && OfReplay(e) && Subject(s, e) == Some(p)
    requires e.Pop? ==> QueueOk(s, s.replays[e.r].project)
    ensures p < |Apply(s, e).ledger.places| && PlaceOk(Apply(s, e), p)
  {
    if e.Pop? {
      assert Waits(s, s.replays[e.r].project, p);
    } else if e.ReplayIssue? || e.ReplayMerge? {
      assert ReplayedBy(s, e.r, p);
    }
    hide Apply;
    PartsOf(s, p);
    ReplayHeld(s, e, p);
    ReplayReplayed(s, e, p);
    ReplayQueued(s, e, p);
    hide Enabled, Subject;
    PartsOf(Apply(s, e), p);
  }

  /** Nothing that is not registered is anywhere. */
  lemma NowhereYet(s: State)
    requires Inv(s)
    ensures var n := |s.ledger.places|;
      && (forall a: nat :: !HeldBy(s, a, n)) && (forall r: nat :: !ReplayedBy(s, r, n))
          && (forall j: nat :: !Waits(s, j, n))
  {
    var n: nat := |s.ledger.places|;
    forall a: nat ensures !HeldBy(s, a, n) {
      if a < |s.attempts| {
        assert AttemptOk(s, a);
      }
    }
    forall r: nat ensures !ReplayedBy(s, r, n) {
      if r < |s.replays| {
        assert ReplayOk(s, r);
      }
    }
    forall j: nat ensures !Waits(s, j, n) {
      assert QueueOk(s, j);
    }
  }

  lemma RegisterPlace(s: State, e: Event, p: nat)
    requires Inv(s) && Enabled(s, e) && e.Register? && p < |Apply(s, e).ledger.places|
    ensures PlaceOk(Apply(s, e), p)
  {
    var t := Apply(s, e);
    NowhereYet(s);
    if p < |s.ledger.places| {
      assert PlaceOk(s, p);
    }
    if e.t in s.board.placed {
      assert RegistryOk(s, e.t);
    }
    hide Inv, ApplyTrigger, ApplyMerge, ApplyReplay;
    forall a ensures HeldBy(t, a, p) <==> t.ledger.places[p] == Held(a) {
      assert HeldBy(s, a, p) <==> HeldBy(t, a, p);
    }
    forall r ensures ReplayedBy(t, r, p) <==> t.ledger.places[p] == Replaying(r) {
      assert ReplayedBy(s, r, p) <==> ReplayedBy(t, r, p);
    }
    forall j | Waits(t, j, p)
      ensures t.ledger.places[p] == Queued && Known(t.board, t.ledger, p) && ProjectOf(t.board, t.ledger, p) == j
    {
      assert Waits(s, j, p);
    }
  }

  lemma RestartPlace(s: State, e: Event, p: nat)
    requires Inv(s) && Enabled(s, e) && e.Restart? && p < |Apply(s, e).ledger.places|
    ensures PlaceOk(Apply(s, e), p)
  {
    assert PlaceOk(s, p);
    hide Inv, ApplyTrigger, ApplyMerge, ApplyLegs;
    forall j ensures Waits(Apply(s, e), j, p) <==> Waits(s, j, p) {
    }
  }

  lemma StepPlace(s: State, e: Event, p: nat)
    requires Inv(s) && Enabled(s, e) && p < |Apply(s, e).ledger.places|
    ensures PlaceOk(Apply(s, e), p)
  {
    NewPlacements(s, e);
    assert Sizes(s);
    hide Apply;
    if e.Register? {
      RegisterPlace(s, e, p);
    } else if e.Restart? {
      RestartPlace(s, e, p);
    } else if Subject(s, e) != Some(p) {
      FramedPlace(s, e, p);
    } else {
      assert PlaceOk(s, p);
      SubjectIsMoved(s, e);
      if OfTrigger(e) {
        TriggerSubject(s, e, p);
      } else if OfMerge(e) {
        MergeSubject(s, e, p);
      } else {
        assert e.Pop? ==> QueueOk(s, s.replays[e.r].project);
        ReplaySubject(s, e, p);
      }
    }
  }

  lemma SubjectIsMoved(s: State, e: Event)
    requires Enabled(s, e) && Subject(s, e).Some?
    ensures !OfLegs(e)
  {
  }

  lemma StepRegistry(s: State, e: Event, x: nat)
    requires Inv(s) && Enabled(s, e) && x in Apply(s, e).board.placed
    ensures RegistryOk(Apply(s, e), x)
  {
    assert x in s.board.placed ==> RegistryOk(s, x);
    NewPlacements(s, e);
    if !e.Register? && !e.Restart? {
      RegistryEffect(s, e);
      hide Apply;
    }
    hide Inv, ApplyTrigger, ApplyMerge;
  }

  lemma QueueEffect(s: State, e: Event, j: nat)
    requires Enabled(s, e)
    ensures var q, t := s.projects, Apply(s, e).projects;
      || (Queue(t.queues, j) == Queue(q.queues, j) && Queue(t.arrived, j) == Queue(q.arrived, j)
          && Queue(t.served, j) == Queue(q.served, j))
      || (e.Pop? && Queue(q.queues, j) != [] && Queue(t.queues, j) == Queue(q.queues, j)[1..]
          && Queue(t.arrived, j) == Queue(q.arrived, j)
          && Queue(t.served, j) == Queue(q.served, j) + [Queue(q.queues, j)[0]])
      || (e.Defer? && HeldBy(s, e.a, s.attempts[e.a].pc.pid) && s.attempts[e.a].pc.pid < |s.ledger.places|
          && Queue(t.queues, j) == Queue(q.queues, j) + [s.attempts[e.a].pc.pid]
          && Queue(t.arrived, j) == Queue(q.arrived, j) + [s.attempts[e.a].pc.pid]
              && Queue(t.served, j) == Queue(q.served, j))
  {
    hide Subject, EndingOf, Concluded, HasTask, PlaceAfter, VerdictAfter, RegisteredIn, ProjectOf;
  }

  /** A queue without repetitions, with its history. */
  ghost predicate Orderly(q: seq<nat>, arrived: seq<nat>, served: seq<nat>, n: nat) {
    && (forall i :: 0 <= i < |q| ==> q[i] < n)
    && (forall i, k :: 0 <= i < k < |q| ==> q[i] != q[k])
    && arrived == served + q
  }

  lemma OrderlyPush(q: seq<nat>, arrived: seq<nat>, served: seq<nat>, n: nat, x: nat)
    requires Orderly(q, arrived, served, n) && x < n && x !in q
    ensures Orderly(q + [x], arrived + [x], served, n)
  {
  }

  lemma OrderlyPop(q: seq<nat>, arrived: seq<nat>, served: seq<nat>, n: nat)
    requires Orderly(q, arrived, served, n) && q != []
    ensures Orderly(q[1..], arrived, served + [q[0]], n)
  {
    assert q == [q[0]] + q[1..];
    assert served + [q[0]] + q[1..] == served + q;
  }

  lemma StepQueue(s: State, e: Event, j: nat)
    requires Inv(s) && Enabled(s, e)
    ensures QueueOk(Apply(s, e), j)
  {
    var p := if e.Defer? then s.attempts[e.a].pc.pid else 0;
    hide Inv, Apply, Enabled;
    QueueFacts(s, j);
    NewPlacements(s, e);
    QueueEffect(s, e, j);
    var q, t := Queue(s.projects.queues, j), Apply(s, e);
    var n, m := |s.ledger.places|, |t.ledger.places|;
    var arrived, served := Queue(s.projects.arrived, j), Queue(s.projects.served, j);
    if e.Defer? {
      DeferredIsNew(s, e, j);
    }
    hide Queue, HeldBy, Orderly;
    if e.Defer? && HeldBy(s, e.a, p) && p < n {
      OrderlyPush(q, arrived, served, n, p);
    }
    if q != [] {
      OrderlyPop(q, arrived, served, n);
    }
    OrderlyLonger(Queue(t.projects.queues, j), Queue(t.projects.arrived, j), Queue(t.projects.served, j), n, m);
    IsQueueOk(t, j);
  }

  lemma QueueFacts(s: State, j: nat)
    requires Inv(s)
    ensures Orderly(Queue(s.projects.queues, j), Queue(s.projects.arrived, j), Queue(s.projects.served, j),
      |s.ledger.places|)
  {
    assert QueueOk(s, j);
    hide Inv;
  }

  /** A placement in hand is in no queue. */
  lemma DeferredIsNew(s: State, e: Event, j: nat)
    requires Inv(s) && Enabled(s, e) && e.Defer?
    ensures HeldBy(s, e.a, s.attempts[e.a].pc.pid) && s.attempts[e.a].pc.pid < |s.ledger.places| ==>
      s.attempts[e.a].pc.pid !in Queue(s.projects.queues, j)
  {
    var p := s.attempts[e.a].pc.pid;
    assert p < |s.ledger.places| ==> PlaceOk(s, p);
    hide Inv;
    assert p < |s.ledger.places| && HeldBy(s, e.a, p) ==> !Waits(s, j, p);
  }

  lemma OrderlyLonger(q: seq<nat>, arrived: seq<nat>, served: seq<nat>, n: nat, m: nat)
    requires Orderly(q, arrived, served, n) && n <= m
    ensures Orderly(q, arrived, served, m)
  {
  }

  lemma IsQueueOk(t: State, j: nat)
    requires Orderly(Queue(t.projects.queues, j), Queue(t.projects.arrived, j), Queue(t.projects.served, j),
      |t.ledger.places|)
    ensures QueueOk(t, j)
  {
  }
}
