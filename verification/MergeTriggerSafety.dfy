/** Commits, the whole invariant, and what holds over every run. */
module MergeTriggerSafety {
  import opened Wrappers
  import opened MergeTrigger
  import opened MergeTriggerEffects
  import opened MergeTriggerPlaces
  import opened MergeTriggerSerial

  /** The base of a commit as its step checked it. */
  predicate RightBase(s: State, e: Event, base: nat)
    requires Enabled(s, e)
  {
    match e
    case Merge(a, _) => s.attempts[a].pc.base == base
    case ReplayMerge(r, _) =>
      var t := s.ledger.placements[s.replays[r].pc.pid].task;
      t in s.board.base && s.board.base[t] == base
    case ResolverCommits(p) => s.ledger.places[p].Auto?
    case _ => false
  }

  lemma TriggerCommits(s: State, e: Event)
    requires Enabled(s, e) && OfTrigger(e)
    ensures Apply(s, e).ledger.commits == s.ledger.commits
  {
    hide ApplyMerge, ApplyReplay, ApplyLegs;
  }

  lemma LegsCommits(s: State, e: Event)
    requires Enabled(s, e) && OfLegs(e)
    ensures Apply(s, e).ledger.commits == s.ledger.commits
  {
    hide ApplyMerge, ApplyReplay, ApplyTrigger;
  }

  ghost predicate CommitMade(s: State, e: Event)
    requires Enabled(s, e)
  {
    var l, m := s.ledger, Apply(s, e).ledger;
    && Subject(s, e).Some? && Subject(s, e).value < |l.places| && Known(s.board, l, Subject(s, e).value)
    && m.places == l.places[Subject(s, e).value := MergedIn]
    && |m.commits| == |l.commits| + 1
    && m.commits == l.commits + [m.commits[|l.commits|]]
    && m.commits[|l.commits|].pid == Subject(s, e).value
    && l.placements[Subject(s, e).value].changeset == Changes(m.commits[|l.commits|].base)
    && RightBase(s, e, m.commits[|l.commits|].base)
  }

  lemma MergeCommits(s: State, e: Event)
    requires Enabled(s, e) && OfMerge(e)
    ensures Apply(s, e).ledger.commits == s.ledger.commits || CommitMade(s, e)
  {
    hide ApplyTrigger, ApplyReplay, ApplyLegs, Frozen, Enqueued, HasTask, VerdictAfter;
  }

  lemma ReplayCommits(s: State, e: Event)
    requires Enabled(s, e) && OfReplay(e)
    ensures Apply(s, e).ledger.commits == s.ledger.commits || CommitMade(s, e)
  {
    hide ApplyTrigger, ApplyMerge, ApplyLegs, Frozen, Dequeued;
  }

  /** What an event adds to the commits. */
  lemma CommitsEffect(s: State, e: Event)
    requires Enabled(s, e)
    ensures Apply(s, e).ledger.commits == s.ledger.commits || CommitMade(s, e)
  {
    if OfTrigger(e) {
      TriggerCommits(s, e);
    } else if OfMerge(e) {
      MergeCommits(s, e);
    } else if OfReplay(e) {
      ReplayCommits(s, e);
    } else {
      LegsCommits(s, e);
    }
    hide Apply, Enabled, Subject, CommitMade;
  }

  /** A placement that has come to rest is no event's subject. */
  lemma SubjectIsLive(s: State, e: Event, p: nat)
    requires Inv(s) && Enabled(s, e) && Subject(s, e) == Some(p) && p < |s.ledger.places|
    ensures var x := s.ledger.places[p]; x.Placed? || x.Held? || x.Queued? || x.Replaying? || x.Auto?
  {
    assert PlaceOk(s, p);
    if OfTrigger(e) {
      assert RegistryOk(s, s.attempts[e.a].task);
    } else if OfMerge(e) {
      assert HeldBy(s, e.a, p);
    } else if e.Pop? {
      assert Waits(s, s.replays[e.r].project, p);
    } else if e.ReplayIssue? || e.ReplayMerge? {
      assert ReplayedBy(s, e.r, p);
    }
    hide Inv;
  }

  /** Where a placement has come to rest. */
  predicate Settled(place: Place) {
    place.Overwritten? || place.Absorbed? || place.MergedIn? || place.Superseded? || place.Parked? || place.Lost?
  }

  /** What has come to rest stays where it is. */
  lemma RestStays(s: State, e: Event, p: nat)
    requires Inv(s) && Enabled(s, e) && p < |s.ledger.places| && Settled(s.ledger.places[p])
    ensures p < |Apply(s, e).ledger.places| && Apply(s, e).ledger.places[p] == s.ledger.places[p]
  {
    if Subject(s, e) == Some(p) {
      SubjectIsLive(s, e, p);
    }
    if OfTrigger(e) {
      TriggerPlaces(s, e);
      hide Apply;
    } else if OfMerge(e) {
      MergePlaces(s, e);
      hide Apply;
    } else if e.Register? {
      assert PlaceOk(s, p);
      if e.t in s.board.placed {
        assert RegistryOk(s, e.t);
      }
      hide ApplyTrigger, ApplyMerge, ApplyReplay;
    } else if e.Restart? {
      hide ApplyTrigger, ApplyMerge, ApplyLegs;
    } else {
      OtherPlaces(s, e);
      hide Apply;
    }
    hide Inv;
  }

  /** What is merged stays merged. */
  lemma MergedStays(s: State, e: Event, p: nat)
    requires Inv(s) && Enabled(s, e) && p < |s.ledger.places| && s.ledger.places[p] == MergedIn
    ensures p < |Apply(s, e).ledger.places| && Apply(s, e).ledger.places[p] == MergedIn
  {
    RestStays(s, e, p);
    hide Apply, Enabled, Inv;
  }

  lemma OldCommit(s: State, e: Event, i: nat)
    requires Inv(s) && Enabled(s, e) && i < |s.ledger.commits|
    ensures i < |Apply(s, e).ledger.commits| && CommitOk(Apply(s, e), i)
  {
    assert CommitOk(s, i);
    var c, t := s.ledger.commits[i], Apply(s, e);
    MergedStays(s, e, c.pid);
    BoardGrows(s, e);
    KnownStays(s, t, c.pid);
    CommitsEffect(s, e);
    if t.ledger.commits != s.ledger.commits {
      SubjectIsLive(s, e, Subject(s, e).value);
    }
    hide Inv, Apply, Enabled, Subject, RightBase;
  }

  lemma NewCommit(s: State, e: Event)
    requires Inv(s) && Enabled(s, e) && Apply(s, e).ledger.commits != s.ledger.commits
    ensures var i := |s.ledger.commits|; i < |Apply(s, e).ledger.commits| && CommitOk(Apply(s, e), i)
  {
    var t, p := Apply(s, e), Subject(s, e).value;
    CommitsEffect(s, e);
    SubjectIsLive(s, e, p);
    BoardGrows(s, e);
    KnownStays(s, t, p);
    BaseIsRecorded(s, e, p);
    forall k | 0 <= k < |s.ledger.commits| ensures s.ledger.commits[k].pid != p {
      assert CommitOk(s, k);
    }
    hide Inv, Apply, Enabled, Subject;
  }

  lemma BaseIsRecorded(s: State, e: Event, p: nat)
    requires Inv(s) && Enabled(s, e) && Subject(s, e) == Some(p) && Known(s.board, s.ledger, p)
    ensures forall base :: RightBase(s, e, base) && s.ledger.placements[p].changeset == Changes(base) ==>
      s.ledger.placements[p].task in s.board.base && s.board.base[s.ledger.placements[p].task] == base
  {
    if e.Merge? {
      assert AttemptOk(s, e.a);
    } else if e.ResolverCommits? {
      assert AutoOk(s, p);
    }
    hide Inv;
  }

  lemma StepCommit(s: State, e: Event, i: nat)
    requires Inv(s) && Enabled(s, e) && i < |Apply(s, e).ledger.commits|
    ensures CommitOk(Apply(s, e), i)
  {
    CommitsEffect(s, e);
    hide Apply, Enabled, CommitOk, Subject, Inv;
    if i < |s.ledger.commits| {
      OldCommit(s, e, i);
    } else {
      NewCommit(s, e);
    }
  }

  lemma StepAuto(s: State, e: Event, p: nat)
    requires Inv(s) && Enabled(s, e) && p < |Apply(s, e).ledger.places|
    ensures AutoOk(Apply(s, e), p)
  {
    assert p < |s.ledger.places| ==> AutoOk(s, p);
    var t := Apply(s, e);
    BoardGrows(s, e);
    AutoFrom(s, e, p);
    if p < |s.ledger.places| && Known(s.board, s.ledger, p) {
      KnownStays(s, t, p);
    }
    hide Inv, Apply, Enabled;
  }

  /** A placement is handed to the resolver by an attempt that checked its base. */
  lemma AutoFrom(s: State, e: Event, p: nat)
    requires Inv(s) && Enabled(s, e) && p < |Apply(s, e).ledger.places|
    ensures Apply(s, e).ledger.places[p].Auto? ==>
      && p < |s.ledger.places| && Known(s.board, s.ledger, p)
      && (s.ledger.places[p].Auto?
          || (s.ledger.placements[p].task in s.board.base
              && s.ledger.placements[p].changeset == Changes(s.board.base[s.ledger.placements[p].task])))
  {
    assert p < |s.ledger.places| ==> AutoOk(s, p);
    NewPlacements(s, e);
    assert Sizes(s);
    if e.Merge? {
      assert AttemptOk(s, e.a);
    }
    hide Inv, Apply;
    if OfMerge(e) {
      AutoFromMerge(s, e, p);
    } else if OfReplay(e) {
      AutoFromReplay(s, e, p);
    } else {
      AutoFromOther(s, e, p);
    }
  }

  lemma AutoFromOther(s: State, e: Event, p: nat)
    requires Enabled(s, e) && (OfTrigger(e) || OfLegs(e)) && p < |Apply(s, e).ledger.places|
    ensures Apply(s, e).ledger.places[p].Auto? ==> p < |s.ledger.places| && s.ledger.places[p].Auto?
  {
    hide ApplyMerge, ApplyReplay;
  }

  lemma AutoFromMerge(s: State, e: Event, p: nat)
    requires Enabled(s, e) && OfMerge(e) && p < |s.ledger.places| == |Apply(s, e).ledger.places|
    requires e.Merge? ==> AttemptOk(s, e.a)
    ensures Apply(s, e).ledger.places[p].Auto? ==>
      || s.ledger.places[p].Auto?
      || (Known(s.board, s.ledger, p) && s.ledger.placements[p].task in s.board.base
          && s.ledger.placements[p].changeset == Changes(s.board.base[s.ledger.placements[p].task]))
  {
    hide ApplyTrigger, ApplyReplay, ApplyLegs, Frozen, Enqueued, HasTask, VerdictAfter;
  }

  lemma AutoFromReplay(s: State, e: Event, p: nat)
    requires Enabled(s, e) && OfReplay(e) && p < |s.ledger.places| == |Apply(s, e).ledger.places|
    ensures Apply(s, e).ledger.places[p].Auto? ==> s.ledger.places[p].Auto?
  {
    hide ApplyTrigger, ApplyMerge, ApplyLegs, Frozen, Dequeued;
  }

  lemma StepKeepsInv(s: State, e: Event)
    requires Inv(s) && Enabled(s, e)
    ensures Inv(Apply(s, e))
  {
    var t := Apply(s, e);
    assert Sizes(s);
    StepSizes(s, e);
    hide Apply, Enabled, PlaceOk, AutoOk, AttemptOk, ReplayOk, RegistryOk, QueueOk, CommitOk, Sizes;
    forall p | 0 <= p < |t.ledger.places| ensures PlaceOk(t, p) && AutoOk(t, p) {
      StepPlace(s, e, p);
      StepAuto(s, e, p);
    }
    forall a | 0 <= a < |t.attempts| ensures AttemptOk(t, a) { StepAttempt(s, e, a); }
    forall r | 0 <= r < |t.replays| ensures ReplayOk(t, r) { StepReplay(s, e, r); }
    forall x | x in t.board.placed ensures RegistryOk(t, x) { StepRegistry(s, e, x); }
    forall j: nat ensures QueueOk(t, j) { StepQueue(s, e, j); }
    forall i | 0 <= i < |t.ledger.commits| ensures CommitOk(t, i) { StepCommit(s, e, i); }
  }

  lemma InitOk()
    ensures Inv(Init())
  {
  }

  lemma {:induction false} RunKeepsInv(es: seq<Event>)
    ensures Inv(Run(es))
  {
    hide Apply, Enabled, Inv;
    if es == [] {
      InitOk();
    } else {
      RunKeepsInv(es[..|es| - 1]);
      if Enabled(Run(es[..|es| - 1]), es[|es| - 1]) {
        StepKeepsInv(Run(es[..|es| - 1]), es[|es| - 1]);
      }
    }
  }

  // ----- What holds over every run -----

  /** Each registration is in exactly one place, and the registry, the attempts,
      the queues and the replays hold precisely what is recorded to be there. */
  lemma InOnePlace(es: seq<Event>, p: nat)
    requires p < |Run(es).ledger.placements|
    ensures p < |Run(es).ledger.places| && PlaceOk(Run(es), p)
  {
    RunKeepsInv(es);
    hide Run;
  }

  function CommitsOf(l: Ledger, t: nat, n: nat): nat
    requires n <= |l.commits|
  {
    if n == 0 then 0
    else
      var p := l.commits[n - 1].pid;
      CommitsOf(l, t, n - 1) + if p < |l.placements| && l.placements[p].task == t then 1 else 0
  }

  function RegistrationsOf(l: Ledger, t: nat, n: nat): nat
    requires n <= |l.placements|
  {
    if n == 0 then 0 else RegistrationsOf(l, t, n - 1) + if l.placements[n - 1].task == t then 1 else 0
  }

  function CommittedPids(l: Ledger, t: nat, n: nat): set<nat>
    requires n <= |l.commits|
  {
    set i | 0 <= i < n && l.commits[i].pid < |l.placements|
      && l.placements[l.commits[i].pid].task == t :: l.commits[i].pid
  }

  function RegisteredPids(l: Ledger, t: nat, n: nat): set<nat>
    requires n <= |l.placements|
  {
    set p | 0 <= p < n && l.placements[p].task == t
  }

  lemma {:induction false} RegistrationsCounted(l: Ledger, t: nat, n: nat)
    requires n <= |l.placements|
    ensures |RegisteredPids(l, t, n)| == RegistrationsOf(l, t, n)
  {
    if n > 0 {
      RegistrationsCounted(l, t, n - 1);
      assert RegisteredPids(l, t, n) == RegisteredPids(l, t, n - 1) + if l.placements[n - 1].task == t then {n - 1}
        else {};
    }
  }

  lemma CommittedStep(l: Ledger, t: nat, n: nat)
    requires 0 < n <= |l.commits| && forall i, k :: 0 <= i < k < |l.commits| ==> l.commits[i].pid != l.commits[k].pid
    ensures var p := l.commits[n - 1].pid;
      && p !in CommittedPids(l, t, n - 1)
      && CommittedPids(l, t, n) ==
        (if p < |l.placements| && l.placements[p].task == t then CommittedPids(l, t, n - 1) + {p}
          else CommittedPids(l, t, n - 1))
  {
  }

  lemma CountOneMore(a: set<nat>, x: nat)
    requires x !in a
    ensures |a + {x}| == |a| + 1
  {
  }

  lemma {:induction false} CommitsCounted(l: Ledger, t: nat, n: nat)
    requires n <= |l.commits| && forall i, k :: 0 <= i < k < |l.commits| ==> l.commits[i].pid != l.commits[k].pid
    ensures |CommittedPids(l, t, n)| == CommitsOf(l, t, n)
  {
    if n == 0 {
      assert CommittedPids(l, t, 0) == {};
    } else {
      CommitsCounted(l, t, n - 1);
      CommittedStep(l, t, n);
      var p := l.commits[n - 1].pid;
      var mine := p < |l.placements| && l.placements[p].task == t;
      assert CommitsOf(l, t, n) == CommitsOf(l, t, n - 1) + if mine then 1 else 0;
      hide CommittedPids, CommitsOf;
      if mine {
        CountOneMore(CommittedPids(l, t, n - 1), p);
      }
    }
  }

  lemma {:induction false} SubsetIsSmaller(a: set<nat>, b: set<nat>)
    requires a <= b
    ensures |a| <= |b|
  {
    if a != {} {
      var x :| x in a;
      SubsetIsSmaller(a - {x}, b - {x});
    }
  }

  /** The commits for a task never outnumber its registrations; no registration is
      committed twice; and each commit declares the base its dispatch recorded. */
  lemma CommitsAreBounded(es: seq<Event>, t: nat)
    ensures var l := Run(es).ledger;
      && CommitsOf(l, t, |l.commits|) <= RegistrationsOf(l, t, |l.placements|)
      && (forall i, k :: 0 <= i < k < |l.commits| ==> l.commits[i].pid != l.commits[k].pid)
      && (forall i :: 0 <= i < |l.commits| ==> CommitOk(Run(es), i))
  {
    RunKeepsInv(es);
    var s := Run(es);
    var l := s.ledger;
    hide Run;
    forall i, k | 0 <= i < k < |l.commits| ensures l.commits[i].pid != l.commits[k].pid {
      assert CommitOk(s, i);
    }
    CommitsCounted(l, t, |l.commits|);
    RegistrationsCounted(l, t, |l.placements|);
    SubsetIsSmaller(CommittedPids(l, t, |l.commits|), RegisteredPids(l, t, |l.placements|));
  }

  /** A project's queue gives out what it took in, in order, and keeps the rest. */
  lemma QueueIsFifo(es: seq<Event>, j: nat)
    ensures var q := Run(es).projects; Queue(q.arrived, j) == Queue(q.served, j) + Queue(q.queues, j)
  {
    RunKeepsInv(es);
    hide Run;
    assert QueueOk(Run(es), j);
  }

  predicate InSection(s: State, o: Owner) {
    match o
    case ByAttempt(a) => a < |s.attempts| && (s.attempts[a].pc.InSerial? || s.attempts[a].pc.Committed?)
    case ByReplay(r) => r < |s.replays| && (s.replays[r].pc.ReplaySerial? || s.replays[r].pc.ReplayCommitted?)
  }

  /** Merges are one at a time. */
  lemma OneMergeAtATime(es: seq<Event>, o: Owner, q: Owner)
    requires InSection(Run(es), o) && InSection(Run(es), q)
    ensures o == q && Run(es).serial == Some(o)
  {
    RunKeepsInv(es);
    hide Run;
    var s := Run(es);
    assert o.ByAttempt? ==> AttemptOk(s, o.a);
    assert q.ByAttempt? ==> AttemptOk(s, q.a);
    assert o.ByReplay? ==> ReplayOk(s, o.r);
    assert q.ByReplay? ==> ReplayOk(s, q.r);
  }
}
