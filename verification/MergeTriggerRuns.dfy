/** Stretches of runs of the merge trigger, from any state they can start in. */
module MergeTriggerRuns {
  import opened Wrappers
  import opened MergeTrigger

  /** The state after `es` from state `s`. */
  function From(s: State, es: seq<Event>): State
    decreases |es|
  {
    if es == [] then s else From(Step(s, es[0]), es[1..])
  }

  lemma {:induction false} FromSnoc(s: State, es: seq<Event>, e: Event)
    ensures From(s, es + [e]) == Step(From(s, es), e)
    decreases |es|
  {
    hide Step;
    if es == [] {
      assert es + [e] == [e];
      assert [e][1..] == [];
      assert From(Step(s, e), []) == Step(s, e);
    } else {
      assert (es + [e])[1..] == es[1..] + [e];
      FromSnoc(Step(s, es[0]), es[1..], e);
    }
  }

  lemma {:induction false} FromInit(es: seq<Event>)
    ensures Run(es) == From(Init(), es)
  {
    hide Step;
    if es != [] {
      FromInit(es[..|es| - 1]);
      assert es == es[..|es| - 1] + [es[|es| - 1]];
      FromSnoc(Init(), es[..|es| - 1], es[|es| - 1]);
    }
  }

  lemma {:induction false} FromSum(s: State, es: seq<Event>, fs: seq<Event>)
    ensures From(s, es + fs) == From(From(s, es), fs)
    decreases |es|
  {
    hide Step;
    if es == [] {
      assert es + fs == fs;
    } else {
      assert (es + fs)[1..] == es[1..] + fs;
      FromSum(Step(s, es[0]), es[1..], fs);
    }
  }

  lemma Two(s: State, a: Event, b: Event)
    ensures From(s, [a, b]) == Step(Step(s, a), b)
  {
    hide Step;
    assert [a, b][1..] == [b] && [b][1..] == [];
    assert From(Step(Step(s, a), b), []) == Step(Step(s, a), b);
    assert From(Step(s, a), [b]) == Step(Step(s, a), b);
  }

  lemma Three(s: State, a: Event, b: Event, c: Event)
    ensures From(s, [a, b, c]) == Step(Step(Step(s, a), b), c)
  {
    hide Step;
    Two(s, a, b);
    FromSnoc(s, [a, b], c);
    assert [a, b] + [c] == [a, b, c];
    hide From;
  }

  lemma Four(s: State, a: Event, b: Event, c: Event, d: Event)
    ensures From(s, [a, b, c, d]) == Step(Step(Step(Step(s, a), b), c), d)
  {
    hide Step;
    Three(s, a, b, c);
    FromSnoc(s, [a, b, c], d);
    assert [a, b, c] + [d] == [a, b, c, d];
    hide From;
  }

  lemma Five(s: State, a: Event, b: Event, c: Event, d: Event, e: Event)
    ensures From(s, [a, b, c, d, e]) == Step(Step(Step(Step(Step(s, a), b), c), d), e)
  {
    hide Step;
    Four(s, a, b, c, d);
    FromSnoc(s, [a, b, c, d], e);
    assert [a, b, c, d] + [e] == [a, b, c, d, e];
    hide From;
  }

  // ----- Opening a task -----

  /** Dispatch, recorded base, and the end of the dispatch. */
  function Opening(t: nat, j: nat): seq<Event> { [NewDispatch(t, j), RecordBase(t, 7), FinishDispatch(t, true, true)] }

  function Opened(s: State, t: nat, j: nat): State {
    s.(board := s.board.(
      dispatch := s.board.dispatch[t := Dispatch(j, Done)], base := s.board.base[t := 7],
        owed := s.board.owed + multiset{t}))
  }

  lemma LegSteps(s: State, t: nat, x: nat)
    ensures t !in s.board.dispatch ==>
      Step(s, NewDispatch(t, x)) == s.(board := s.board.(dispatch := s.board.dispatch[t := Dispatch(x, InFlight)]))
    ensures t in s.board.dispatch && t !in s.board.base ==>
      Step(s, RecordBase(t, x)) == s.(board := s.board.(base := s.board.base[t := x]))
  {
    hide ApplyMerge, ApplyReplay, ApplyTrigger;
  }

  lemma FinishStep(s: State, t: nat)
    requires t in s.board.dispatch && s.board.dispatch[t].phase.InFlight? && t in s.board.base
    ensures Step(s, FinishDispatch(t, true, true)) == s.(board := s.board.(
      dispatch := s.board.dispatch[t := Dispatch(s.board.dispatch[t].project, Done)],
        owed := s.board.owed + multiset{t}))
  {
    hide ApplyMerge, ApplyReplay, ApplyTrigger;
  }

  lemma OpensTo(s: State, t: nat, j: nat)
    requires t !in s.board.dispatch && t !in s.board.base
    ensures From(s, Opening(t, j)) == Opened(s, t, j)
  {
    hide Step;
    var s1 := s.(board := s.board.(dispatch := s.board.dispatch[t := Dispatch(j, InFlight)]));
    var s2 := s1.(board := s1.board.(base := s1.board.base[t := 7]));
    LegSteps(s, t, j);
    LegSteps(s1, t, 7);
    FinishStep(s2, t);
    Three(s, NewDispatch(t, j), RecordBase(t, 7), FinishDispatch(t, true, true));
    hide From;
    assert s2.board.dispatch[t := Dispatch(j, Done)] == s.board.dispatch[t := Dispatch(j, Done)];
  }

  // ----- An attempt up to the take -----

  /** The first five steps of an attempt on a task that is done and not merged. */
  function Approach(t: nat, a: nat): seq<Event> {
    [StartOwed(t), ReadBase(a, true), CheckMerged(a), ReadDispatch(a, true), CheckEstop(a)]
  }

  /** What the attempt comes to: it stands in front of the registry, or is halted. */
  function Arrived(s: State): Pc { if s.stop.engaged then Finished(EstopHalted) else EstopClear(7) }

  function With(s: State, t: nat, pc: Pc): State {
    s.(board := s.board.(owed := s.board.owed - multiset{t}), attempts := s.attempts + [Attempt(t, pc)])
  }

  predicate Ready(s: State, t: nat) {
    && t in s.board.owed && t in s.board.base && s.board.base[t] == 7 && t !in s.board.merged
    && t in s.board.dispatch && s.board.dispatch[t].phase.Done?
  }

  lemma OneStep(s: State, t: nat, pc: Pc, e: Event, next: Pc)
    requires Ready(s, t)
    requires var a := |s.attempts|;
      || (pc == Begun && e == ReadBase(a, true) && next == HasBase(7))
      || (pc == HasBase(7) && e == CheckMerged(a) && next == NotMerged(7))
      || (pc == NotMerged(7) && e == ReadDispatch(a, true) && next == DispatchDone(7))
      || (pc == DispatchDone(7) && e == CheckEstop(a) && next == Arrived(s))
    ensures Step(With(s, t, pc), e) == With(s, t, next)
  {
    hide ApplyMerge, ApplyReplay, ApplyLegs;
    var w := With(s, t, pc);
    assert Enabled(w, e) && OfTrigger(e);
    assert w.attempts[|s.attempts| := Attempt(t, next)] == With(s, t, next).attempts;
  }

  lemma StartsOwed(s: State, t: nat)
    requires t in s.board.owed
    ensures Step(s, StartOwed(t)) == With(s, t, Begun)
  {
    hide ApplyMerge, ApplyReplay, ApplyTrigger;
  }

  lemma Approached(s: State, t: nat)
    requires Ready(s, t)
    ensures From(s, Approach(t, |s.attempts|)) == With(s, t, Arrived(s))
  {
    var a := |s.attempts|;
    StartsOwed(s, t);
    OneStep(s, t, Begun, ReadBase(a, true), HasBase(7));
    OneStep(s, t, HasBase(7), CheckMerged(a), NotMerged(7));
    OneStep(s, t, NotMerged(7), ReadDispatch(a, true), DispatchDone(7));
    OneStep(s, t, DispatchDone(7), CheckEstop(a), Arrived(s));
    Five(s, StartOwed(t), ReadBase(a, true), CheckMerged(a), ReadDispatch(a, true), CheckEstop(a));
    hide Step, From;
  }

  // ----- Landing and take -----

  function Landed(s: State, t: nat): State {
    s.(board := s.board.Register(t, |s.ledger.placements|).(owed := s.board.owed + multiset{t}),
       ledger := s.ledger.(
         placements := s.ledger.placements + [Placement(t, Changes(7))], places := s.ledger.places + [Placed]))
  }

  lemma Lands(s: State, t: nat)
    requires t in s.board.dispatch && t !in s.board.placed
    ensures Step(s, Register(t, Changes(7))) == Landed(s, t)
  {
    hide ApplyMerge, ApplyReplay, ApplyTrigger;
  }

  lemma TakeStep(s: State, a: nat, t: nat, p: nat)
    requires a < |s.attempts| && s.attempts[a] == Attempt(t, EstopClear(7))
    requires t in s.board.placed && s.board.placed[t] == p < |s.ledger.places|
    ensures Step(s, Take(a)) == s.(
      board := s.board.Without(t), attempts := s.attempts[a := Attempt(t, Taken(p, 7))],
      ledger := s.ledger.(places := s.ledger.places[p := Held(a)]))
  {
    hide ApplyMerge, ApplyReplay, ApplyLegs;
  }

  /** Landing, approach and take of one more registration of task `t`. */
  function Landing(t: nat, a: nat): seq<Event> { [Register(t, Changes(7))] + Approach(t, a) + [Take(a)] }

  function InHands(s: State, t: nat): State {
    s.(attempts := s.attempts + [Attempt(t, Taken(|s.ledger.places|, 7))],
       ledger := s.ledger.(
         placements := s.ledger.placements + [Placement(t, Changes(7))],
           places := s.ledger.places + [Held(|s.attempts|)]))
  }

  lemma LandsAndTakes(s: State, t: nat)
    requires t in s.board.dispatch && s.board.dispatch[t].phase.Done? && t in s.board.base && s.board.base[t] == 7
    requires t !in s.board.placed && t !in s.board.merged && !s.stop.engaged
      && |s.ledger.places| == |s.ledger.placements|
    ensures From(s, Landing(t, |s.attempts|)) == InHands(s, t)
  {
    hide Step, From, Approach;
    var a, p := |s.attempts|, |s.ledger.places|;
    var s1 := Landed(s, t);
    Lands(s, t);
    OneEvent(s, Register(t, Changes(7)));
    Approached(s1, t);
    FromSum(s, [Register(t, Changes(7))], Approach(t, a));
    var s2 := With(s1, t, EstopClear(7));
    TakeStep(s2, a, t, p);
    FromSnoc(s, [Register(t, Changes(7))] + Approach(t, a), Take(a));
    var s3 := Step(s2, Take(a));
    assert s3.board.owed == s.board.owed + multiset{t} - multiset{t} == s.board.owed;
    assert s3.board.placed == s.board.placed[t := p] - {t} == s.board.placed;
    assert s3.attempts == s.attempts + [Attempt(t, Taken(p, 7))];
    assert s3.ledger.places == s.ledger.places + [Held(a)];
  }

  lemma OneEvent(s: State, e: Event)
    ensures From(s, [e]) == Step(s, e)
  {
    hide Step;
    assert [e][1..] == [];
    assert From(Step(s, e), []) == Step(s, e);
  }

  // ----- With the placement in hand -----

  /** Attempt `a` holds placement `p` of task `t` in a state with the section free. */
  predicate Holding(s: State, a: nat, t: nat, p: nat, pc: Pc) {
    && a < |s.attempts| && s.attempts[a] == Attempt(t, pc)
    && Known(s.board, s.ledger, p) && s.ledger.placements[p] == Placement(t, Changes(7)) && s.serial.None?
  }

  function At(s: State, a: nat, t: nat, pc: Pc): State
    requires a < |s.attempts|
  {
    s.(attempts := s.attempts[a := Attempt(t, pc)])
  }

  lemma MovesOn(s: State, a: nat, t: nat, p: nat, pc: Pc, e: Event, next: Pc)
    requires Holding(s, a, t, p, pc)
    requires var frozen := ProjectOf(s.board, s.ledger, p) in s.projects.frozen;
      || (pc == Taken(p, 7) && e == Resolve(a, true) && next == Resolved(p, 7))
      || (pc == Resolved(p, 7) && e == CheckFrozen(a, true) && next == if frozen then Deferring(p, 7)
          else Unfrozen(p, 7))
      || (pc == Unfrozen(p, 7) && e == Load(a) && next == Loaded(p, 7))
    ensures Step(s, e) == At(s, a, t, next)
  {
    hide ApplyTrigger, ApplyReplay, ApplyLegs;
  }

  /** Up to the serial section. */
  function Towards(a: nat): seq<Event> { [Resolve(a, true), CheckFrozen(a, true), Load(a), Acquire(a)] }

  lemma Arrives(s: State, a: nat, t: nat, p: nat)
    requires Holding(s, a, t, p, Taken(p, 7)) && ProjectOf(s.board, s.ledger, p) !in s.projects.frozen
    ensures From(s, Towards(a)) == At(s, a, t, InSerial(p, 7)).(serial := Some(ByAttempt(a)))
  {
    hide Step, From;
    var s1, s2, s3 := At(s, a, t, Resolved(p, 7)), At(s, a, t, Unfrozen(p, 7)), At(s, a, t, Loaded(p, 7));
    MovesOn(s, a, t, p, Taken(p, 7), Resolve(a, true), Resolved(p, 7));
    MovesOn(s1, a, t, p, Resolved(p, 7), CheckFrozen(a, true), Unfrozen(p, 7));
    MovesOn(s2, a, t, p, Unfrozen(p, 7), Load(a), Loaded(p, 7));
    assert s1.attempts[a := Attempt(t, Unfrozen(p, 7))] == s2.attempts;
    assert s2.attempts[a := Attempt(t, Loaded(p, 7))] == s3.attempts;
    Acquires(s3, a, t, p);
    assert s3.attempts[a := Attempt(t, InSerial(p, 7))] == s.attempts[a := Attempt(t, InSerial(p, 7))];
    Four(s, Resolve(a, true), CheckFrozen(a, true), Load(a), Acquire(a));
  }

  lemma Acquires(s: State, a: nat, t: nat, p: nat)
    requires Holding(s, a, t, p, Loaded(p, 7))
    ensures Step(s, Acquire(a)) == At(s, a, t, InSerial(p, 7)).(serial := Some(ByAttempt(a)))
  {
    hide ApplyTrigger, ApplyReplay, ApplyLegs;
  }

  /** From the take to the merged list. */
  function Through(a: nat): seq<Event> { Towards(a) + [Merge(a, Merges), MarkMerged(a)] }

  function CarriedOut(s: State, a: nat, t: nat, p: nat): State
    requires Holding(s, a, t, p, Taken(p, 7))
  {
    At(s, a, t, Finished(MergedV)).(
      ledger := s.ledger.(places := s.ledger.places[p := MergedIn], commits := s.ledger.commits + [Commit(p, 7)]),
      board := s.board.Merged(t))
  }

  lemma Carried(s: State, a: nat, t: nat, p: nat)
    requires Holding(s, a, t, p, Taken(p, 7)) && ProjectOf(s.board, s.ledger, p) !in s.projects.frozen
    ensures From(s, Through(a)) == CarriedOut(s, a, t, p)
  {
    Arrives(s, a, t, p);
    var s1 := At(s, a, t, InSerial(p, 7)).(serial := Some(ByAttempt(a)));
    FromSum(s, Towards(a), [Merge(a, Merges), MarkMerged(a)]);
    Two(s1, Merge(a, Merges), MarkMerged(a));
    MergesAndMarks(s1, a, t, p);
    hide Step, From, Towards;
    assert s1.attempts[a := Attempt(t, Finished(MergedV))] == s.attempts[a := Attempt(t, Finished(MergedV))];
  }

  lemma MergesAndMarks(s: State, a: nat, t: nat, p: nat)
    requires a < |s.attempts| && s.attempts[a] == Attempt(t, InSerial(p, 7))
    requires Known(s.board, s.ledger, p) && s.ledger.placements[p] == Placement(t, Changes(7))
    ensures Step(Step(s, Merge(a, Merges)), MarkMerged(a)) == At(s, a, t, Finished(MergedV)).(
      ledger := s.ledger.(places := s.ledger.places[p := MergedIn], commits := s.ledger.commits + [Commit(p, 7)]),
      board := s.board.Merged(t), serial := None)
  {
    hide ApplyTrigger, ApplyReplay, ApplyLegs;
    var s1 := Step(s, Merge(a, Merges));
    assert s1.ledger ==
      s.ledger.(places := s.ledger.places[p := MergedIn], commits := s.ledger.commits + [Commit(p, 7)]);
    assert s1.attempts == s.attempts[a := Attempt(t, Committed)] && s1.board == s.board && s1.projects == s.projects;
    assert s1.attempts[a := Attempt(t, Finished(MergedV))] == s.attempts[a := Attempt(t, Finished(MergedV))];
  }

  /** A conflict in the serial section. */
  lemma Clashes(s: State, a: nat, t: nat, p: nat, auto: bool, freezes: bool)
    requires a < |s.attempts| && s.attempts[a] == Attempt(t, InSerial(p, 7))
    requires Known(s.board, s.ledger, p) && s.ledger.placements[p] == Placement(t, Changes(7))
    ensures var j := ProjectOf(s.board, s.ledger, p);
      Step(s, Merge(a, Conflicts(auto, freezes))) ==
        At(s, a, t, Finished(if auto then AutoResolveStarted else ParkedV)).(
        ledger := s.ledger.(places := s.ledger.places[p := if auto then Auto else Parked]), serial := None,
        projects := if !auto && freezes then s.projects.(frozen := s.projects.frozen + {j}) else s.projects)
  {
    hide ApplyTrigger, ApplyReplay, ApplyLegs;
  }

  // ----- Into the queue -----

  function Deferral(a: nat): seq<Event> { [Resolve(a, true), CheckFrozen(a, true), Defer(a, true)] }

  function InQueue(s: State, a: nat, t: nat, p: nat): State
    requires Holding(s, a, t, p, Taken(p, 7))
  {
    At(s, a, t, Finished(FrozenDeferred)).(
      ledger := s.ledger.(places := s.ledger.places[p := Queued]),
      projects := Enqueued(s.projects, ProjectOf(s.board, s.ledger, p), p))
  }

  lemma DeferStep(s: State, a: nat, t: nat, p: nat)
    requires Holding(s, a, t, p, Deferring(p, 7))
    requires !HasTask(s.ledger, Queue(s.projects.queues, ProjectOf(s.board, s.ledger, p)), t)
    ensures Step(s, Defer(a, true)) == At(s, a, t, Finished(FrozenDeferred)).(
      ledger := s.ledger.(places := s.ledger.places[p := Queued]),
      projects := Enqueued(s.projects, ProjectOf(s.board, s.ledger, p), p))
  {
    hide ApplyTrigger, ApplyReplay, ApplyLegs;
  }

  lemma Defers(s: State, a: nat, t: nat, p: nat)
    requires Holding(s, a, t, p, Taken(p, 7)) && ProjectOf(s.board, s.ledger, p) in s.projects.frozen
    requires !HasTask(s.ledger, Queue(s.projects.queues, ProjectOf(s.board, s.ledger, p)), t)
    ensures From(s, Deferral(a)) == InQueue(s, a, t, p)
  {
    hide Step, From;
    var s1, s2 := At(s, a, t, Resolved(p, 7)), At(s, a, t, Deferring(p, 7));
    MovesOn(s, a, t, p, Taken(p, 7), Resolve(a, true), Resolved(p, 7));
    MovesOn(s1, a, t, p, Resolved(p, 7), CheckFrozen(a, true), Deferring(p, 7));
    assert s1.attempts[a := Attempt(t, Deferring(p, 7))] == s2.attempts;
    DeferStep(s2, a, t, p);
    assert s2.attempts[a := Attempt(t, Finished(FrozenDeferred))] ==
      s.attempts[a := Attempt(t, Finished(FrozenDeferred))];
    Three(s, Resolve(a, true), CheckFrozen(a, true), Defer(a, true));
  }

  // ----- Replay -----

  lemma StartsReplay(s: State, j: nat)
    requires j in s.projects.frozen && !s.stop.engaged
    ensures Step(s, StartReplay(j, true)) == s.(
      projects := s.projects.(frozen := s.projects.frozen - {j}), replays := s.replays + [Replay(j, Popping)])
  {
    hide ApplyTrigger, ApplyMerge, ApplyLegs;
  }

  lemma Pops(s: State, r: nat, j: nat)
    requires r < |s.replays| && s.replays[r] == Replay(j, Popping)
    ensures var q := Queue(s.projects.queues, j);
      Step(s, Pop(r, true)) ==
        if q == [] || q[0] >= |s.ledger.places| then s.(replays := s.replays[r := Replay(j, Ended)])
        else s.(ledger := s.ledger.(places := s.ledger.places[q[0] := Replaying(r)]),
                replays := s.replays[r := Replay(j, Popped(q[0]))], projects := Dequeued(s.projects, j))
  {
    hide ApplyTrigger, ApplyMerge, ApplyLegs;
  }

  lemma Issues(s: State, r: nat, j: nat, p: nat)
    requires r < |s.replays| && s.replays[r] == Replay(j, Popped(p)) && Known(s.board, s.ledger, p) && s.serial.None?
    ensures Step(s, ReplayIssue(r, true)) == s.(
      replays := s.replays[r := Replay(j, ReplaySerial(p))], serial := Some(ByReplay(r)))
  {
    hide ApplyTrigger, ApplyMerge, ApplyLegs;
  }
}
