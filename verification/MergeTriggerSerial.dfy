/** Every event keeps the attempts and replays as they should be, and the serial
    section with one owner. */
module MergeTriggerSerial {
  import opened Wrappers
  import opened MergeTrigger
  import opened MergeTriggerEffects

  /** Who may change the owner of the serial section. */
  lemma SerialEffect(s: State, e: Event)
    requires Enabled(s, e) && !e.Restart?
    ensures var t := Apply(s, e);
      || t.serial == s.serial
      || (s.serial.None?
          && ((e.Acquire? && t.serial == Some(ByAttempt(e.a))) || (e.ReplayIssue? && t.serial == Some(ByReplay(e.r)))))
      || (e.Merge? && e.a < |s.attempts| && s.attempts[e.a].pc.InSerial?)
      || (e.MarkMerged? && e.a < |s.attempts| && s.attempts[e.a].pc.Committed?)
      || (e.ReplayMerge? && e.r < |s.replays| && s.replays[e.r].pc.ReplaySerial?)
      || (e.ReplayMark? && e.r < |s.replays| && s.replays[e.r].pc.ReplayCommitted?)
  {
    hide EndingOf, Concluded, Frozen, Enqueued, Dequeued, ProjectOf, HasTask, PlaceAfter, VerdictAfter, RegisteredIn;
  }

  /** The owner keeps the section until its own step gives it back. */
  lemma SerialIsOwned(s: State, e: Event, o: Owner)
    requires Inv(s) && Enabled(s, e) && !e.Restart? && s.serial == Some(o)
    requires o.ByAttempt? ==> !((OfTrigger(e) || OfMerge(e)) && e.a == o.a)
    requires o.ByReplay? ==> !((e.ReplayMerge? || e.ReplayMark?) && e.r == o.r)
    ensures Apply(s, e).serial == s.serial
  {
    SerialEffect(s, e);
    assert (e.Merge? || e.MarkMerged?) && e.a < |s.attempts| ==> AttemptOk(s, e.a);
    assert (e.ReplayMerge? || e.ReplayMark?) && e.r < |s.replays| ==> ReplayOk(s, e.r);
    hide Inv, Apply, Enabled;
  }

  /** Whose pc the event leaves alone. */
  lemma OtherAttempt(s: State, e: Event, a: nat)
    requires Inv(s) && Enabled(s, e) && !e.Restart? && a < |s.attempts|
    requires !((OfTrigger(e) || OfMerge(e)) && e.a == a)
    ensures a < |Apply(s, e).attempts| && AttemptOk(Apply(s, e), a)
  {
    assert AttemptOk(s, a);
    var x, t := s.attempts[a], Apply(s, e);
    if OfTrigger(e) {
      TriggerAttempts(s, e);
    } else if OfMerge(e) {
      MergeAttempts(s, e);
    } else {
      OtherAttempts(s, e);
    }
    BoardGrows(s, e);
    if x.pc.InSerial? || x.pc.Committed? {
      SerialIsOwned(s, e, ByAttempt(a));
    }
    if Carries(x.pc).Some? {
      KnownStays(s, t, Carries(x.pc).value);
    }
    hide Inv, Apply, Enabled, Subject;
  }

  lemma TriggerAttempt(s: State, e: Event)
    requires Enabled(s, e) && OfTrigger(e) && e.a < |s.attempts| && AttemptOk(s, e.a) && Sizes(s)
    requires forall t :: t in s.board.placed ==> RegistryOk(s, t)
    ensures e.a < |Apply(s, e).attempts| && AttemptOk(Apply(s, e), e.a)
  {
    if e.Take? {
      assert s.attempts[e.a].task in s.board.placed ==> RegistryOk(s, s.attempts[e.a].task);
      TakeAttempt(s, e);
    } else {
      CheckAttempt(s, e);
    }
    hide Apply, Enabled;
  }

  lemma TakeAttempt(s: State, e: Event)
    requires Enabled(s, e) && e.Take? && e.a < |s.attempts| && AttemptOk(s, e.a) && Sizes(s)
    requires s.attempts[e.a].task in s.board.placed ==> RegistryOk(s, s.attempts[e.a].task)
    ensures e.a < |Apply(s, e).attempts| && AttemptOk(Apply(s, e), e.a)
  {
    hide ApplyMerge, ApplyReplay, ApplyLegs;
  }

  lemma CheckAttempt(s: State, e: Event)
    requires Enabled(s, e) && OfTrigger(e) && !e.Take? && e.a < |s.attempts| && AttemptOk(s, e.a)
    ensures e.a < |Apply(s, e).attempts| && AttemptOk(Apply(s, e), e.a)
  {
    hide ApplyMerge, ApplyReplay, ApplyLegs, Known;
  }

  lemma MergeAttempt(s: State, e: Event)
    requires Enabled(s, e) && OfMerge(e) && e.a < |s.attempts| && AttemptOk(s, e.a) && Sizes(s)
    ensures e.a < |Apply(s, e).attempts| && AttemptOk(Apply(s, e), e.a)
  {
    hide ApplyTrigger, ApplyReplay, ApplyLegs, EndingOf, Frozen, Enqueued, HasTask, VerdictAfter, PlaceAfter;
  }

  lemma StepAttempt(s: State, e: Event, a: nat)
    requires Inv(s) && Enabled(s, e) && a < |Apply(s, e).attempts|
    ensures AttemptOk(Apply(s, e), a)
  {
    if e.Restart? {
    } else if (OfTrigger(e) || OfMerge(e)) && e.a == a {
      if OfTrigger(e) {
        TriggerAttempts(s, e);
        assert AttemptOk(s, a);
        hide Apply, Enabled;
        TriggerAttempt(s, e);
      } else {
        MergeAttempts(s, e);
        assert AttemptOk(s, a);
        hide Apply, Enabled;
        MergeAttempt(s, e);
      }
    } else if a < |s.attempts| {
      hide Apply, Enabled, AttemptOk;
      OtherAttempt(s, e, a);
    } else {
      NewAttempt(s, e, a);
      hide Apply, Enabled, Inv;
    }
  }

  lemma NewAttempt(s: State, e: Event, a: nat)
    requires Enabled(s, e) && !e.Restart? && |s.attempts| <= a < |Apply(s, e).attempts|
    ensures Apply(s, e).attempts[a].pc.Begun?
  {
    if OfTrigger(e) {
      TriggerAttempts(s, e);
    } else if OfMerge(e) {
      MergeAttempts(s, e);
    } else {
      OtherAttempts(s, e);
    }
    hide Apply, Enabled, Subject;
  }

  lemma OwnReplay(s: State, e: Event)
    requires Enabled(s, e) && (e.Pop? || e.ReplayIssue? || e.ReplayMerge? || e.ReplayMark?) && e.r < |s.replays|
    requires ReplayOk(s, e.r) && (e.Pop? ==> forall p: nat :: Waits(s, s.replays[e.r].project, p) ==>
      Known(s.board, s.ledger, p) && ProjectOf(s.board, s.ledger, p) == s.replays[e.r].project)
    ensures e.r < |Apply(s, e).replays| && ReplayOk(Apply(s, e), e.r)
  {
    if e.Pop? && Queue(s.projects.queues, s.replays[e.r].project) != [] {
      assert Waits(s, s.replays[e.r].project, Queue(s.projects.queues, s.replays[e.r].project)[0]);
    }
    hide ApplyTrigger, ApplyMerge, ApplyLegs, EndingOf, Frozen, Dequeued, PlaceAfter;
  }

  lemma StepReplay(s: State, e: Event, r: nat)
    requires Inv(s) && Enabled(s, e) && r < |Apply(s, e).replays|
    ensures ReplayOk(Apply(s, e), r)
  {
    if !e.Restart? {
      ReplaysEffect(s, e);
      if (e.Pop? || e.ReplayIssue? || e.ReplayMerge? || e.ReplayMark?) && e.r == r {
        assert ReplayOk(s, r);
        WaitersAreKnown(s, s.replays[r].project);
        OwnReplay(s, e);
        hide *;
      } else if r < |s.replays| {
        OtherReplay(s, e, r);
        hide *;
      } else {
        hide Apply, Enabled, Inv, Subject;
      }
    }
  }

  lemma WaitersAreKnown(s: State, j: nat)
    requires Inv(s)
    ensures forall p: nat :: Waits(s, j, p) ==> Known(s.board, s.ledger, p) && ProjectOf(s.board, s.ledger, p) == j
  {
    assert QueueOk(s, j);
    forall p: nat | Waits(s, j, p) ensures Known(s.board, s.ledger, p) && ProjectOf(s.board, s.ledger, p) == j {
      assert PlaceOk(s, p);
    }
  }

  lemma OtherReplay(s: State, e: Event, r: nat)
    requires Inv(s) && Enabled(s, e) && !e.Restart? && r < |s.replays| <= |Apply(s, e).replays|
    requires Apply(s, e).replays[r] == s.replays[r]
    requires !((e.ReplayMerge? || e.ReplayMark?) && e.r == r)
    ensures ReplayOk(Apply(s, e), r)
  {
    assert ReplayOk(s, r);
    var x, t := s.replays[r], Apply(s, e);
    BoardGrows(s, e);
    if x.pc.ReplaySerial? || x.pc.ReplayCommitted? {
      SerialIsOwned(s, e, ByReplay(r));
    }
    if ReplayCarries(x.pc).Some? {
      KnownStays(s, t, ReplayCarries(x.pc).value);
    }
    hide Inv, Apply, Enabled, Subject;
  }
}
