/** Who sees to a project's queue: as long as something waits in it, the project is
    frozen, so that a replay can be started, or a replay is at work. */
module MergeTriggerQueue {
  import opened Wrappers
  import opened MergeTrigger
  import opened MergeTriggerEffects
  import opened MergeTriggerPlaces
  import opened MergeTriggerSafety

  function QueueOf(s: State, j: nat): seq<nat> { Queue(s.projects.queues, j) }

  /** Replay `r` is at work on project `j`. */
  predicate AtWork(s: State, r: nat, j: nat) { r < |s.replays| && s.replays[r].project == j && !s.replays[r].pc.Ended? }

  predicate Live(s: State, j: nat) { exists r: nat :: r < |s.replays| && AtWork(s, r, j) }

  predicate LiveBut(s: State, j: nat, q: nat) { exists r: nat :: r < |s.replays| && r != q && AtWork(s, r, j) }

  predicate Attended(s: State, j: nat) { QueueOf(s, j) == [] || j in s.projects.frozen || Live(s, j) }

  /** The replay meets a conflict and the freeze mark cannot be set. */
  predicate Unmarked(s: State, r: nat, result: MergeResult)
    requires Replays(s, r)
  {
    var l, p := s.ledger, ReplayCarries(s.replays[r].pc).value;
    var t := l.placements[p].task;
    EndingOf(l.placements[p].changeset, if t in s.board.base then Some(s.board.base[t]) else None, ByHand(result)) ==
      Refreezes(false)
  }

  /** The event leaves the queue of `j` to nobody: the manual commit fails behind the
      thaw, a pop fails, a conflict cannot be marked, an attempt that has seen the
      freeze comes too late, or the process ends in the middle of a replay. */
  predicate Strands(s: State, e: Event, j: nat) {
    && Enabled(s, e)
    && match e
       case StartReplay(p, ok) => p == j && !ok && QueueOf(s, j) != [] && !Live(s, j)
       case Pop(r, ok) => s.replays[r].project == j && !ok && QueueOf(s, j) != [] && j !in s.projects.frozen
         && !LiveBut(s, j, r)
       case ReplayMerge(r, result) =>
         s.replays[r].project == j && Unmarked(s, r, result) && QueueOf(s, j) != [] && j !in s.projects.frozen
           && !LiveBut(s, j, r)
       case Defer(a, ok) =>
         ok && ProjectOf(s.board, s.ledger, s.attempts[a].pc.pid) == j && j !in s.projects.frozen && !Live(s, j)
         && !HasTask(s.ledger, QueueOf(s, j), s.ledger.placements[s.attempts[a].pc.pid].task)
       case Restart(_) => QueueOf(s, j) != [] && j !in s.projects.frozen
       case _ => false
  }

  // ----- One step -----

  /** Neither queues nor freezes nor replays are touched. */
  lemma TriggerAside(s: State, e: Event)
    requires Enabled(s, e) && OfTrigger(e)
    ensures Apply(s, e).projects == s.projects && Apply(s, e).replays == s.replays
  {
    hide ApplyMerge, ApplyReplay, ApplyLegs;
  }

  lemma LegsAside(s: State, e: Event)
    requires Enabled(s, e) && OfLegs(e)
    ensures Apply(s, e).projects == s.projects && Apply(s, e).replays == s.replays
  {
    hide ApplyTrigger, ApplyMerge, ApplyReplay, RegisteredIn;
  }

  lemma MergeAttended(s: State, e: Event, j: nat)
    requires Enabled(s, e) && OfMerge(e) && Attended(s, j)
    ensures Attended(Apply(s, e), j) <==> !Strands(s, e, j)
  {
    var t := Apply(s, e);
    hide ApplyTrigger, ApplyReplay, ApplyLegs, EndingOf, Concluded, VerdictAfter, PlaceAfter, HasTask;
    assert t.replays == s.replays;
    assert forall r: nat :: AtWork(t, r, j) <==> AtWork(s, r, j);
    assert Live(t, j) <==> Live(s, j);
    hide Live;
  }

  /** A replay's own step changes that replay alone. */
  lemma OthersAtWork(s: State, t: State, r: nat, j: nat)
    requires r < |s.replays| == |t.replays|
      && t.replays == s.replays[r := Replay(s.replays[r].project, t.replays[r].pc)]
    ensures LiveBut(t, j, r) <==> LiveBut(s, j, r)
    ensures Live(s, j) <==> LiveBut(s, j, r) || AtWork(s, r, j)
    ensures Live(t, j) <==> LiveBut(s, j, r) || AtWork(t, r, j)
  {
    assert forall q: nat :: q != r ==> (AtWork(t, q, j) <==> AtWork(s, q, j));
    hide AtWork;
    if q: nat :| q < |s.replays| && q != r && AtWork(s, q, j) {
      assert AtWork(t, q, j);
    }
    if q: nat :| q < |t.replays| && q != r && AtWork(t, q, j) {
      assert AtWork(s, q, j);
    }
  }

  lemma PopAttended(s: State, e: Event, j: nat)
    requires Inv(s) && Enabled(s, e) && e.Pop? && Attended(s, j)
    ensures Attended(Apply(s, e), j) <==> !Strands(s, e, j)
  {
    var t := Apply(s, e);
    assert QueueOk(s, s.replays[e.r].project);
    hide Inv, ApplyTrigger, ApplyMerge, ApplyLegs;
    OthersAtWork(s, t, e.r, j);
    hide Live, LiveBut;
  }

  lemma ReplayStepAttended(s: State, e: Event, j: nat)
    requires Enabled(s, e) && (e.ReplayIssue? || e.ReplayMerge? || e.ReplayMark?) && Attended(s, j)
    ensures Attended(Apply(s, e), j) <==> !Strands(s, e, j)
  {
    var t := Apply(s, e);
    hide ApplyTrigger, ApplyMerge, ApplyLegs, Concluded, PlaceAfter, EndingOf;
    OthersAtWork(s, t, e.r, j);
    hide Live, LiveBut;
  }

  lemma StartAttended(s: State, e: Event, j: nat)
    requires Enabled(s, e) && e.StartReplay? && Attended(s, j)
    ensures Attended(Apply(s, e), j) <==> !Strands(s, e, j)
  {
    var t, n := Apply(s, e), |s.replays|;
    hide ApplyTrigger, ApplyMerge, ApplyLegs;
    assert forall r: nat :: r < n ==> (AtWork(t, r, j) <==> AtWork(s, r, j));
    assert AtWork(t, n, j) <==> e.project == j && e.ok;
    hide AtWork;
    if Live(s, j) {
      var r: nat :| r < n && AtWork(s, r, j);
      assert AtWork(t, r, j);
    }
  }

  lemma OtherReplayAttended(s: State, e: Event, j: nat)
    requires Enabled(s, e) && (e.ResolverCommits? || e.ResolverGivesUp? || e.Restart?) && Attended(s, j)
    ensures Attended(Apply(s, e), j) <==> !Strands(s, e, j)
  {
    var t := Apply(s, e);
    hide ApplyTrigger, ApplyMerge, ApplyLegs, Concluded;
    if !e.Restart? {
      assert forall r: nat :: AtWork(t, r, j) <==> AtWork(s, r, j);
      assert Live(t, j) <==> Live(s, j);
      hide Live;
    }
  }

  /** Exactly these events take the attention away. */
  lemma StepAttended(s: State, e: Event, j: nat)
    requires Inv(s) && Enabled(s, e) && Attended(s, j)
    ensures Attended(Apply(s, e), j) <==> !Strands(s, e, j)
  {
    if OfTrigger(e) || OfLegs(e) {
      if OfTrigger(e) { TriggerAside(s, e); } else { LegsAside(s, e); }
      assert forall r: nat :: AtWork(Apply(s, e), r, j) <==> AtWork(s, r, j);
      hide Apply;
    } else if OfMerge(e) {
      MergeAttended(s, e, j);
      hide *;
    } else if e.Pop? {
      PopAttended(s, e, j);
      hide *;
    } else if e.StartReplay? {
      StartAttended(s, e, j);
      hide *;
    } else if e.ReplayIssue? || e.ReplayMerge? || e.ReplayMark? {
      ReplayStepAttended(s, e, j);
      hide *;
    } else {
      OtherReplayAttended(s, e, j);
      hide *;
    }
  }

  // ----- Every run -----

  ghost predicate AlwaysAttended(es: seq<Event>, j: nat) { forall k :: 0 <= k <= |es| ==> Attended(Run(es[..k]), j) }

  ghost predicate NeverStrands(es: seq<Event>, j: nat) { forall k :: 0 <= k < |es| ==>
    !Strands(Run(es[..k]), es[k], j) }

  lemma AlwaysStep(es: seq<Event>, j: nat)
    requires es != []
    ensures var before := es[..|es| - 1];
      && (AlwaysAttended(es, j) <==> AlwaysAttended(before, j) && Attended(Run(es), j))
      && (NeverStrands(es, j) <==> NeverStrands(before, j) && !Strands(Run(before), es[|es| - 1], j))
      && (AlwaysAttended(es, j) ==> Attended(Run(es), j))
  {
    hide Run, Attended, Strands;
    var n := |es| - 1;
    var before := es[..n];
    assert es[..|es|] == es && before[..n] == before;
    assert forall k :: 0 <= k <= n ==> before[..k] == es[..k];
    assert forall k :: 0 <= k < n ==> before[k] == es[k];
  }

  /** Over every run, and at every point of it: whatever waits in a project's queue
      is seen to, if and only if no event of the run strands it. */
  lemma {:induction false} AlwaysAttendedIff(es: seq<Event>, j: nat)
    ensures AlwaysAttended(es, j) <==> NeverStrands(es, j)
  {
    hide Attended, Strands, Apply, Enabled, Inv;
    if es == [] {
      assert Attended(Init(), j) by { NobodyWaits(j); }
    } else {
      var before, e := es[..|es| - 1], es[|es| - 1];
      AlwaysAttendedIff(before, j);
      AlwaysStep(es, j);
      RunKeepsInv(before);
      LastIsAttended(before, j);
      hide AlwaysAttended, NeverStrands;
      if AlwaysAttended(before, j) {
        if Enabled(Run(before), e) {
          StepAttended(Run(before), e, j);
        } else {
          NotEnabled(Run(before), e, j);
        }
      }
    }
  }

  lemma NobodyWaits(j: nat)
    ensures Attended(Init(), j)
  {
  }

  lemma LastIsAttended(es: seq<Event>, j: nat)
    ensures AlwaysAttended(es, j) ==> Attended(Run(es), j)
  {
    hide Run, Attended;
    assert es[..|es|] == es;
  }

  lemma NotEnabled(s: State, e: Event, j: nat)
    requires !Enabled(s, e)
    ensures !Strands(s, e, j)
  {
  }

  // ----- With care from outside -----

  /** An attempt of project `j` has seen the freeze and not queued its placement yet. */
  predicate AboutToDefer(s: State, a: nat, j: nat) {
    && a < |s.attempts| && s.attempts[a].pc.Deferring? && Known(s.board, s.ledger, s.attempts[a].pc.pid)
    && ProjectOf(s.board, s.ledger, s.attempts[a].pc.pid) == j
  }

  /** What has to go right around a replay of `j`: the commit behind the thaw, each
      pop and each freeze mark; no attempt is about to queue something when the
      project is thawed; and the process does not end in the middle of a replay. */
  ghost predicate Careful(s: State, e: Event, j: nat) {
    match e
    case StartReplay(p, ok) => p == j ==> ok && forall a: nat :: !AboutToDefer(s, a, j)
    case Pop(r, ok) => r < |s.replays| && s.replays[r].project == j ==> ok
    case ReplayMerge(r, result) => r < |s.replays| && s.replays[r].project == j && result.Conflicts? ==> result.freezes
    case Restart(_) => !Live(s, j)
    case _ => true
  }

  ghost predicate CarefulRun(es: seq<Event>, j: nat) { forall k :: 0 <= k < |es| ==> Careful(Run(es[..k]), es[k], j) }

  /** Whoever is about to queue something does so in a frozen project. */
  ghost predicate Guarded(s: State, j: nat) { (exists a: nat :: AboutToDefer(s, a, j)) ==> j in s.projects.frozen }

  lemma CarefulNeverStrands(s: State, e: Event, j: nat)
    requires Guarded(s, j) && Attended(s, j) && Careful(s, e, j)
    ensures !Strands(s, e, j)
  {
    if Enabled(s, e) && e.Defer? {
      assert AboutToDefer(s, e.a, ProjectOf(s.board, s.ledger, s.attempts[e.a].pc.pid));
    }
  }

  lemma OldDefers(s: State, e: Event, a: nat, j: nat)
    requires Inv(s) && Enabled(s, e) && AboutToDefer(Apply(s, e), a, j)
    requires a < |s.attempts| && s.attempts[a] == Apply(s, e).attempts[a]
    ensures AboutToDefer(s, a, j)
  {
    assert AttemptOk(s, a) && Sizes(s);
    hide Inv, Apply, Enabled;
    BoardGrows(s, e);
    KnownStays(s, Apply(s, e), s.attempts[a].pc.pid);
  }

  /** Who is about to queue something was so before, or has just seen the freeze. */
  lemma DefersFrom(s: State, e: Event, a: nat, j: nat)
    requires Inv(s) && Enabled(s, e) && AboutToDefer(Apply(s, e), a, j)
    ensures AboutToDefer(s, a, j) || (e.CheckFrozen? && j in s.projects.frozen)
  {
    var t := Apply(s, e);
    if e.Restart? {
      hide Inv, ApplyTrigger, ApplyMerge, ApplyLegs;
    } else if OfMerge(e) {
      MergeAttempts(s, e);
      hide Inv, Apply, Enabled, Subject;
      if a == e.a {
        MergeDefers(s, e, j);
      } else {
        OldDefers(s, e, a, j);
      }
    } else {
      hide Inv, Apply, Enabled;
      NoDefers(s, e, a);
      OldDefers(s, e, a, j);
    }
  }

  lemma MergeDefers(s: State, e: Event, j: nat)
    requires Enabled(s, e) && OfMerge(e) && AboutToDefer(Apply(s, e), e.a, j)
    ensures e.CheckFrozen? && j in s.projects.frozen
  {
    hide ApplyTrigger, ApplyReplay, ApplyLegs, EndingOf, Concluded, VerdictAfter, PlaceAfter, HasTask, Enqueued;
  }

  lemma NoDefers(s: State, e: Event, a: nat)
    requires Enabled(s, e) && !OfMerge(e) && !e.Restart? && a < |Apply(s, e).attempts|
      && Apply(s, e).attempts[a].pc.Deferring?
    ensures a < |s.attempts| && s.attempts[a] == Apply(s, e).attempts[a]
  {
    if OfTrigger(e) {
      TriggerAttempts(s, e);
      TriggerNoDefer(s, e);
      hide Apply, Enabled, Subject;
    } else {
      OtherAttempts(s, e);
      hide Apply, Enabled;
    }
  }

  lemma TriggerNoDefer(s: State, e: Event)
    requires Enabled(s, e) && OfTrigger(e)
    ensures e.a < |Apply(s, e).attempts| && !Apply(s, e).attempts[e.a].pc.Deferring?
  {
    hide ApplyMerge, ApplyReplay, ApplyLegs;
  }

  /** Only the thaw takes the freeze away. */
  lemma FreezeStays(s: State, e: Event, j: nat)
    requires Enabled(s, e) && j in s.projects.frozen && !(e.StartReplay? && e.project == j)
    ensures j in Apply(s, e).projects.frozen
  {
    if OfTrigger(e) {
      TriggerAside(s, e);
      hide Apply;
    } else if OfLegs(e) {
      LegsAside(s, e);
      hide Apply;
    }
    hide EndingOf, Concluded, VerdictAfter, PlaceAfter, HasTask, ApplyTrigger, ApplyLegs;
  }

  lemma StepGuarded(s: State, e: Event, j: nat)
    requires Inv(s) && Enabled(s, e) && Guarded(s, j) && Careful(s, e, j)
    ensures Guarded(Apply(s, e), j)
  {
    var t := Apply(s, e);
    hide Apply, Inv, AboutToDefer, Live;
    if a: nat :| AboutToDefer(t, a, j) {
      DefersFrom(s, e, a, j);
      assert j in s.projects.frozen;
      FreezeStays(s, e, j);
    }
  }

  lemma CarefulPrefix(es: seq<Event>, j: nat)
    requires CarefulRun(es, j) && es != []
    ensures CarefulRun(es[..|es| - 1], j) && Careful(Run(es[..|es| - 1]), es[|es| - 1], j)
  {
    hide Run, Careful;
    var n := |es| - 1;
    var before := es[..n];
    assert forall k :: 0 <= k < n ==> before[..k] == es[..k] && before[k] == es[k];
  }

  /** Under that care, whatever waits in the project's queue at the end of a run is
      in a frozen project, whose thaw will start a replay, or a replay is at work. */
  lemma {:induction false} CarefulIsAttended(es: seq<Event>, j: nat)
    requires CarefulRun(es, j)
    ensures Attended(Run(es), j) && Guarded(Run(es), j)
  {
    hide Apply, Enabled, Inv, Attended, Guarded, Careful, Strands;
    if es == [] {
      NobodyWaits(j);
      NobodyDefers(j);
    } else {
      var before, e := es[..|es| - 1], es[|es| - 1];
      CarefulPrefix(es, j);
      CarefulIsAttended(before, j);
      RunKeepsInv(before);
      hide CarefulRun;
      if Enabled(Run(before), e) {
        CarefulNeverStrands(Run(before), e, j);
        StepAttended(Run(before), e, j);
        StepGuarded(Run(before), e, j);
      }
    }
  }

  lemma NobodyDefers(j: nat)
    ensures Guarded(Init(), j)
  {
  }

  // ----- One delivery of a task at a time -----

  /** The queue holds placements of different tasks. */
  ghost predicate Apart(l: Ledger, queue: seq<nat>) {
    && (forall i :: 0 <= i < |queue| ==> queue[i] < |l.placements|)
    && forall i, k :: 0 <= i < k < |queue| ==> l.placements[queue[i]].task != l.placements[queue[k]].task
  }

  lemma ApartGrows(l: Ledger, m: Ledger, queue: seq<nat>)
    requires Apart(l, queue) && l.placements <= m.placements
    ensures Apart(m, queue)
  {
  }

  lemma ApartPush(l: Ledger, queue: seq<nat>, p: nat)
    requires Apart(l, queue) && p < |l.placements| && !HasTask(l, queue, l.placements[p].task)
    ensures Apart(l, queue + [p])
  {
    assert forall i :: 0 <= i < |queue| ==> queue[i] in queue;
  }

  /** What a deferral puts into a queue is a task that does not wait there. */
  lemma DeferredIsApart(s: State, e: Event, j: nat)
    requires Enabled(s, e) && e.Defer? && QueueOf(Apply(s, e), j) != QueueOf(s, j)
    ensures s.attempts[e.a].pc.pid < |s.ledger.placements|
    ensures !HasTask(s.ledger, QueueOf(s, j), s.ledger.placements[s.attempts[e.a].pc.pid].task)
  {
    hide ApplyTrigger, ApplyReplay, ApplyLegs, HasTask;
  }

  lemma StepApart(s: State, e: Event, j: nat)
    requires Enabled(s, e) && Apart(s.ledger, QueueOf(s, j))
    ensures Apart(Apply(s, e).ledger, QueueOf(Apply(s, e), j))
  {
    QueueEffect(s, e, j);
    NewPlacements(s, e);
    var q, n := QueueOf(s, j), Apply(s, e);
    if e.Defer? && QueueOf(n, j) != q {
      DeferredIsApart(s, e, j);
      ApartPush(s.ledger, q, s.attempts[e.a].pc.pid);
    }
    hide Apply, Enabled;
    ApartGrows(s.ledger, n.ledger, QueueOf(n, j));
  }

  /** In every run, a project's queue holds at most one placement of each task. */
  lemma {:induction false} OnePerTask(es: seq<Event>, j: nat)
    ensures Apart(Run(es).ledger, QueueOf(Run(es), j))
  {
    hide Apply, Enabled, Apart;
    if es == [] {
      NothingWaits(j);
    } else {
      OnePerTask(es[..|es| - 1], j);
      if Enabled(Run(es[..|es| - 1]), es[|es| - 1]) {
        StepApart(Run(es[..|es| - 1]), es[|es| - 1], j);
      }
    }
  }

  lemma NothingWaits(j: nat)
    ensures Apart(Init().ledger, QueueOf(Init(), j))
  {
  }
}
