/** The emergency stop and the merge trigger: nothing is lost, whatever the legs do,
    exactly for those orders of calls and announcements in which the value announced
    last is the flag's. */
module MergeTriggerStop {
  import opened Wrappers
  import opened MergeTrigger
  import opened MergeTriggerEffects
  import opened MergeTriggerLegs
  import opened MergeTriggerRuns

  // ----- When the announcements agree with the flag -----

  /** No call changes the stop while another's announcement is still to come. */
  ghost predicate Uncrossed(es: seq<Event>) {
    forall k :: 0 <= k < |es| && es[k].SetStop? ==> Run(es[..k]).stop.sends == multiset{}
  }

  ghost predicate Agrees(stop: Stop) {
    || (stop.sends == multiset{} && stop.shown == stop.engaged)
    || stop.sends == multiset{stop.engaged}
  }

  lemma StepAgrees(s: State, e: Event)
    requires Enabled(s, e) && Agrees(s.stop) && (e.SetStop? ==> s.stop.sends == multiset{})
    ensures Agrees(Apply(s, e).stop)
  {
    if OfTrigger(e) {
      TriggerBoard(s, e);
      hide Apply;
    } else if OfMerge(e) {
      MergeBoard(s, e);
      hide Apply;
    } else if OfReplay(e) && !e.Restart? {
      ReplayBoard(s, e);
      hide Apply;
    } else if e.Restart? {
      hide ApplyTrigger, ApplyMerge, ApplyLegs;
    } else {
      LegsStop(s, e);
      hide Apply, Enabled;
    }
  }

  lemma LegsStop(s: State, e: Event)
    requires Enabled(s, e) && OfLegs(e)
    ensures var x, y := s.stop, Apply(s, e).stop;
      && y.engaged == (if e.SetStop? then e.engaged else x.engaged)
      && y.shown == (if e.AnnounceStop? then e.engaged else x.shown)
      && y.sends == (if e.SetStop? then x.sends + multiset{e.engaged}
          else if e.AnnounceStop? then x.sends - multiset{e.engaged} else x.sends)
      && (e.AnnounceStop? ==> e.engaged in x.sends)
  {
    hide RegisteredIn;
  }

  lemma {:induction false} UncrossedAgrees(es: seq<Event>)
    requires Uncrossed(es)
    ensures Agrees(Run(es).stop)
  {
    hide Apply, Enabled;
    if es != [] {
      var before, e := es[..|es| - 1], es[|es| - 1];
      forall k | 0 <= k < |before| && before[k].SetStop? ensures Run(before[..k]).stop.sends == multiset{} {
        assert before[..k] == es[..k] && before[k] == es[k];
      }
      UncrossedAgrees(before);
      hide Agrees;
      if Enabled(Run(before), e) {
        StepAgrees(Run(before), e);
      }
    }
  }

  /** The same with what a caller can see: when the calls that set and lift the
      stop do not overlap, it is enough that the stop is off and the watcher idle. */
  lemma TakenOnceTheStopIsOff(es: seq<Event>, t: nat, p: nat) returns (k: nat)
    requires CleanRun(es, t) && Uncrossed(es) && PlacedOnce(Run(es), t, p)
    requires var s := Run(es);
      && t in s.board.dispatch && s.board.dispatch[t].phase.Done? && t !in s.board.owed && !Active(s, t)
      && !s.stop.engaged && s.stop.sends == multiset{} && !s.stop.dirty && !s.stop.collecting && t !in s.stop.todo
    ensures t !in Run(es).board.placed
    ensures k < |es| && Takes(Run(es[..k]), es[k], p)
    ensures forall j :: 0 <= j < |es| && j != k ==> !Takes(Run(es[..j]), es[j], p)
  {
    UncrossedAgrees(es);
    k := TakenExactlyOnce(es, t, p);
    hide Run, Takes;
  }

  // ----- The order of calls and announcements -----

  /** A call that stores the flag, or its announcement. */
  predicate StopCall(e: Event) { e.SetStop? || e.AnnounceStop? }

  predicate OnlyCalls(es: seq<Event>) { forall k :: 0 <= k < |es| ==> StopCall(es[k]) }

  /** The order in which a run calls and announces. */
  function StopCalls(es: seq<Event>): seq<Event> {
    if es == [] then []
    else
      var n := |es| - 1;
      if StopCall(es[n]) then StopCalls(es[..n]) + [es[n]] else StopCalls(es[..n])
  }

  /** The same flag, the same value announced last, the same announcements to come. */
  predicate SameStop(x: Stop, y: Stop) { x.engaged == y.engaged && x.shown == y.shown && x.sends == y.sends }

  /** What an event does to flag, announced value and announcements. */
  lemma StopEffect(s: State, e: Event)
    requires Enabled(s, e) && !e.Restart?
    ensures var x, y := s.stop, Apply(s, e).stop;
      && y.engaged == (if e.SetStop? then e.engaged else x.engaged)
      && y.shown == (if e.AnnounceStop? then e.engaged else x.shown)
      && y.sends == (if e.SetStop? then x.sends + multiset{e.engaged}
                     else if e.AnnounceStop? then x.sends - multiset{e.engaged} else x.sends)
  {
    if OfTrigger(e) {
      TriggerBoard(s, e);
    } else if OfMerge(e) {
      MergeBoard(s, e);
    } else if OfReplay(e) {
      ReplayBoard(s, e);
    } else {
      LegsStop(s, e);
    }
    hide Apply, Enabled;
  }

  /** Only the order of calls and announcements decides about flag and announced
      value, whatever happens in between. */
  lemma {:induction false} CallsDecide(es: seq<Event>, t: nat)
    requires CleanRun(es, t)
    ensures SameStop(Run(es).stop, Run(StopCalls(es)).stop)
  {
    hide Apply, Enabled;
    if es != [] {
      var before, e := es[..|es| - 1], es[|es| - 1];
      PrefixClean(es, t);
      CallsDecide(before, t);
      if StopCall(e) {
        RunSplits(StopCalls(before), e);
        SameEnabled(Run(before), Run(StopCalls(before)), e);
        if Enabled(Run(before), e) {
          StopEffect(Run(before), e);
          StopEffect(Run(StopCalls(before)), e);
        }
      } else if Enabled(Run(before), e) {
        StopEffect(Run(before), e);
      }
      hide CleanRun, CleanStep;
    }
  }

  lemma SameEnabled(s: State, u: State, e: Event)
    requires SameStop(s.stop, u.stop) && StopCall(e)
    ensures Enabled(s, e) <==> Enabled(u, e)
  {
  }

  /** The legs are through, and the stop is off for whoever looks at it: no call is
      under way, and the watcher has handled what it was told. */
  ghost predicate LooksDone(s: State, t: nat) {
    && t in s.board.dispatch && s.board.dispatch[t].phase.Done? && t !in s.board.owed && !Active(s, t)
    && !s.stop.engaged && s.stop.sends == multiset{} && !s.stop.dirty && !s.stop.collecting && t !in s.stop.todo
  }

  /** With this order, no run loses a task that was placed once. */
  ghost predicate NeverLoses(order: seq<Event>) {
    forall es, t: nat, p: nat ::
      StopCalls(es) == order && CleanRun(es, t) && LooksDone(Run(es), t) && PlacedOnce(Run(es), t, p) ==>
        t !in Run(es).board.placed
  }

  lemma AgreementTakes(order: seq<Event>, es: seq<Event>, t: nat, p: nat)
    requires StopCalls(es) == order && CleanRun(es, t) && LooksDone(Run(es), t) && PlacedOnce(Run(es), t, p)
    requires !Run(order).stop.shown
    ensures t !in Run(es).board.placed
  {
    CallsDecide(es, t);
    var k := TakenExactlyOnce(es, t, p);
    hide *;
  }

  // ----- A run that loses, for every other order -----

  const NO_PROJECTS := Projects({}, map[], map[], map[])
  const LANDED := Ledger([Placement(0, Changes(7))], [Placed], [])
  const HALTED := Attempt(0, Finished(EstopHalted))

  /** Nothing has happened but calls and announcements. */
  function Quiet(stop: Stop): State { Init().(stop := stop) }

  lemma CallStep(s: State, e: Event)
    requires StopCall(e)
    ensures Step(s, e) == s.(stop := Step(s, e).stop)
    ensures Step(s, e).stop.collecting == s.stop.collecting && Step(s, e).stop.todo == s.stop.todo
    ensures (s.stop.shown ==> s.stop.dirty) ==> Step(s, e).stop.shown ==> Step(s, e).stop.dirty
  {
    hide ApplyMerge, ApplyReplay, ApplyTrigger;
  }

  lemma SameCall(s: State, u: State, e: Event)
    requires StopCall(e) && s.stop == u.stop
    ensures Step(s, e).stop == Step(u, e).stop
  {
    hide ApplyMerge, ApplyReplay, ApplyTrigger;
  }

  /** Calls and announcements do to the stop what they do to it anywhere, and
      nothing to the rest. */
  lemma {:induction false} CallsFrom(s: State, u: State, calls: seq<Event>)
    requires OnlyCalls(calls) && s.stop == u.stop
    ensures From(s, calls) == s.(stop := From(u, calls).stop)
    ensures From(u, calls).stop.collecting == u.stop.collecting && From(u, calls).stop.todo == u.stop.todo
    ensures (u.stop.shown ==> u.stop.dirty) ==> From(u, calls).stop.shown ==> From(u, calls).stop.dirty
    decreases |calls|
  {
    hide Step;
    if calls != [] {
      var e := calls[0];
      CallStep(s, e);
      CallStep(u, e);
      SameCall(s, u, e);
      CallsFrom(Step(s, e), Step(u, e), calls[1..]);
    }
  }

  lemma CallsAreQuiet(calls: seq<Event>)
    requires OnlyCalls(calls)
    ensures Run(calls) == Quiet(Run(calls).stop)
    ensures !Run(calls).stop.collecting && Run(calls).stop.todo == {}
    ensures Run(calls).stop.shown ==> Run(calls).stop.dirty
  {
    FromInit(calls);
    CallsFrom(Init(), Init(), calls);
    hide Run, From, Step;
  }

  /** A value announced was set by a call before. */
  lemma {:induction false} AnnouncedWasSet(order: seq<Event>) returns (i: nat)
    requires OnlyCalls(order) && (Run(order).stop.shown || true in Run(order).stop.sends)
    ensures i < |order| && order[i] == SetStop(true)
  {
    hide Apply, Enabled;
    assert order != [];
    var before, e := order[..|order| - 1], order[|order| - 1];
    if e == SetStop(true) {
      i := |order| - 1;
    } else {
      if Enabled(Run(before), e) {
        StopEffect(Run(before), e);
        if e.AnnounceStop? {
          ToCome(Run(before), e);
        }
      }
      i := AnnouncedWasSet(before);
    }
  }

  lemma ToCome(s: State, e: Event)
    requires Enabled(s, e) && e.AnnounceStop?
    ensures e.engaged in s.stop.sends
  {
  }

  /** The legs of one task while the stop is on: both attempts are halted. */
  function Legs(): seq<Event> { Opening(0, 0) + Approach(0, 0) + [Register(0, Changes(7))] + Approach(0, 1) }

  /** The dispatch ends and the delivery lands right after call `i`, which sets the
      stop; then the other calls and announcements; then the watcher wakes. */
  function Losing(order: seq<Event>, i: nat): seq<Event>
    requires i < |order|
  {
    order[..i + 1] + Legs() + order[i + 1..] + [WatcherWakes]
  }

  function Stranded(stop: Stop): State {
    State(Board(map[0 := 7], map[0 := Dispatch(0, Done)], map[0 := 0], {}, multiset{}), stop, NO_PROJECTS, LANDED, None,
      [HALTED, HALTED], [])
  }

  /** After the first attempt. */
  function Waiting(stop: Stop): State {
    State(Board(map[0 := 7], map[0 := Dispatch(0, Done)], map[], {}, multiset{}), stop, NO_PROJECTS,
      Ledger([], [], []), None,
      [HALTED], [])
  }

  lemma FirstLeg(stop: Stop)
    requires stop.engaged
    ensures From(Quiet(stop), Opening(0, 0) + Approach(0, 0)) == Waiting(stop)
  {
    hide Step, From, Approach, Opening;
    OpensTo(Quiet(stop), 0, 0);
    FromSum(Quiet(stop), Opening(0, 0), Approach(0, 0));
    var s := Opened(Quiet(stop), 0, 0);
    assert multiset{} + multiset{0} == multiset{0};
    Approached(s, 0);
    assert multiset{0} - multiset{0} == multiset{};
  }

  lemma LegsStrand(stop: Stop)
    requires stop.engaged
    ensures From(Quiet(stop), Legs()) == Stranded(stop)
  {
    hide Step, From, Approach, Opening;
    FirstLeg(stop);
    var first, s := Opening(0, 0) + Approach(0, 0), Waiting(stop);
    FromSnoc(Quiet(stop), first, Register(0, Changes(7)));
    Lands(s, 0);
    var s1 := Landed(s, 0);
    assert s1.board.owed == multiset{0};
    Approached(s1, 0);
    FromSum(Quiet(stop), first + [Register(0, Changes(7))], Approach(0, 1));
    assert multiset{0} - multiset{0} == multiset{};
    assert With(s1, 0, Finished(EstopHalted)) == Stranded(stop);
  }

  lemma WakeStep(s: State)
    requires s.stop.shown && !s.stop.collecting && s.stop.todo == {} && s.stop.dirty
    ensures Step(s, WatcherWakes) == s.(stop := s.stop.(dirty := false, collecting := false))
  {
    hide ApplyMerge, ApplyReplay, ApplyTrigger;
  }

  /** Right after call `i`. */
  lemma HeadIs(order: seq<Event>, i: nat)
    requires OnlyCalls(order) && i < |order| && order[i] == SetStop(true)
    ensures var head := order[..i + 1];
      From(Init(), head) == Quiet(Run(head).stop) && Run(head).stop.engaged
  {
    var head := order[..i + 1];
    assert head[..i] + [SetStop(true)] == head;
    CallsAreQuiet(head);
    FromInit(head);
    SetEngages(head[..i]);
    hide Run, From;
  }

  lemma TailIs(order: seq<Event>, i: nat)
    requires OnlyCalls(order) && i < |order|
    ensures From(Stranded(Run(order[..i + 1]).stop), order[i + 1..]) == Stranded(Run(order).stop)
  {
    var head, tail := order[..i + 1], order[i + 1..];
    assert order == head + tail;
    CallsAreQuiet(head);
    FromInit(head);
    FromInit(order);
    FromSum(Init(), head, tail);
    hide Run, From;
    CallsFrom(Stranded(Run(head).stop), Quiet(Run(head).stop), tail);
  }

  lemma LosingEnds(order: seq<Event>, i: nat)
    requires OnlyCalls(order) && i < |order| && order[i] == SetStop(true) && Run(order).stop.shown
    ensures Run(Losing(order, i)) == Stranded(Run(order).stop.(dirty := false, collecting := false))
  {
    var head, tail := order[..i + 1], order[i + 1..];
    hide Run, From, Step, Legs, OnlyCalls;
    HeadIs(order, i);
    LegsStrand(Run(head).stop);
    FromSum(Init(), head, Legs());
    TailIs(order, i);
    FromSum(Init(), head + Legs(), tail);
    CallsAreQuiet(order);
    WakeStep(Stranded(Run(order).stop));
    FromSnoc(Init(), head + Legs() + tail, WatcherWakes);
    FromInit(Losing(order, i));
    hide Quiet;
  }

  lemma SetEngages(before: seq<Event>)
    ensures Run(before + [SetStop(true)]).stop.engaged
  {
    RunSplits(before, SetStop(true));
    hide Run, ApplyMerge, ApplyReplay, ApplyTrigger;
  }

  lemma {:induction false} CallsOfSum(es: seq<Event>, fs: seq<Event>)
    ensures StopCalls(es + fs) == StopCalls(es) + StopCalls(fs)
    decreases |fs|
  {
    if fs == [] {
      assert es + fs == es;
    } else {
      CallsOfSum(es, fs[..|fs| - 1]);
      assert (es + fs)[..|es + fs| - 1] == es + fs[..|fs| - 1];
    }
  }

  lemma {:induction false} CallsOfCalls(es: seq<Event>)
    requires OnlyCalls(es)
    ensures StopCalls(es) == es
  {
    if es != [] {
      CallsOfCalls(es[..|es| - 1]);
      assert es == es[..|es| - 1] + [es[|es| - 1]];
    }
  }

  lemma {:induction false} NoCalls(es: seq<Event>)
    requires forall k :: 0 <= k < |es| ==> !StopCall(es[k])
    ensures StopCalls(es) == []
  {
    if es != [] {
      NoCalls(es[..|es| - 1]);
    }
  }

  lemma LegsAreNoCalls()
    ensures StopCalls(Legs()) == [] && StopCalls([WatcherWakes]) == []
  {
    NoCalls(Legs());
    NoCalls([WatcherWakes]);
    hide StopCalls;
  }

  lemma LosingCalls(order: seq<Event>, i: nat)
    requires OnlyCalls(order) && i < |order|
    ensures StopCalls(Losing(order, i)) == order
  {
    var head, tail := order[..i + 1], order[i + 1..];
    hide StopCalls, Legs;
    CallsOfCalls(head);
    CallsOfCalls(tail);
    LegsAreNoCalls();
    CallsOfSum(head, Legs());
    CallsOfSum(head + Legs(), tail);
    CallsOfSum(head + Legs() + tail, [WatcherWakes]);
    assert head + tail == order;
  }

  /** Clean in any state. */
  predicate Harmless(e: Event) {
    !e.Register? && !e.Restart? && (e.FinishDispatch? ==> e.sees) && (e.ReadBase? ==> e.ok)
      && (e.ReadDispatch? ==> e.ok)
  }

  lemma {:induction false} CleanGoesOn(es: seq<Event>, fs: seq<Event>, t: nat)
    requires CleanRun(es, t) && forall k :: 0 <= k < |fs| ==> Harmless(fs[k])
    ensures CleanRun(es + fs, t)
  {
    hide Run;
    var all := es + fs;
    forall k | 0 <= k < |all| ensures CleanStep(Run(all[..k]), all[k], t) {
      if k < |es| {
        assert all[..k] == es[..k];
      } else {
        assert Harmless(fs[k - |es|]);
      }
    }
  }

  lemma CleanSnoc(es: seq<Event>, e: Event, t: nat)
    requires CleanRun(es, t) && CleanStep(Run(es), e, t)
    ensures CleanRun(es + [e], t)
  {
    hide Run, CleanStep;
    var all := es + [e];
    assert all[..|es|] == es;
    forall k | 0 <= k < |all| ensures CleanStep(Run(all[..k]), all[k], t) {
      if k < |es| {
        assert all[..k] == es[..k];
      }
    }
  }

  /** Up to the landing, with the base on record. */
  lemma FirstIs(order: seq<Event>, i: nat)
    requires OnlyCalls(order) && i < |order| && order[i] == SetStop(true)
    ensures 0 in Run(order[..i + 1] + (Opening(0, 0) + Approach(0, 0))).board.base
  {
    var head, legs := order[..i + 1], Opening(0, 0) + Approach(0, 0);
    hide Run, From, Opening, Approach, OnlyCalls;
    HeadIs(order, i);
    FromSum(Init(), head, legs);
    FirstLeg(Run(head).stop);
    FromInit(head + legs);
  }

  lemma FirstIsHarmless(order: seq<Event>, i: nat)
    requires OnlyCalls(order) && i < |order|
    ensures var first := order[..i + 1] + (Opening(0, 0) + Approach(0, 0));
      forall k :: 0 <= k < |first| ==> Harmless(first[k])
  {
    assert forall k :: 0 <= k <= i ==> StopCall(order[k]);
  }

  lemma FirstIsClean(order: seq<Event>, i: nat)
    requires OnlyCalls(order) && i < |order| && order[i] == SetStop(true)
    ensures var first := order[..i + 1] + (Opening(0, 0) + Approach(0, 0));
      CleanRun(first, 0) && CleanStep(Run(first), Register(0, Changes(7)), 0)
  {
    hide Run, Opening, Approach, OnlyCalls, Harmless;
    FirstIs(order, i);
    FirstIsHarmless(order, i);
    HarmlessIsClean(order[..i + 1] + (Opening(0, 0) + Approach(0, 0)), 0);
    hide CleanRun;
  }

  lemma HarmlessIsClean(fs: seq<Event>, t: nat)
    requires forall k :: 0 <= k < |fs| ==> Harmless(fs[k])
    ensures CleanRun(fs, t)
  {
    hide Run;
    forall k | 0 <= k < |fs| ensures CleanStep(Run(fs[..k]), fs[k], t) {
      assert Harmless(fs[k]);
    }
  }

  lemma LosingIsClean(order: seq<Event>, i: nat)
    requires OnlyCalls(order) && i < |order| && order[i] == SetStop(true)
    ensures CleanRun(Losing(order, i), 0)
  {
    hide Run, CleanRun, CleanStep;
    var first := order[..i + 1] + (Opening(0, 0) + Approach(0, 0));
    FirstIsClean(order, i);
    CleanSnoc(first, Register(0, Changes(7)), 0);
    var rest := Approach(0, 1) + order[i + 1..] + [WatcherWakes];
    CleanGoesOn(first + [Register(0, Changes(7))], rest, 0);
    LosingParts(order, i);
    hide OnlyCalls, Losing;
  }

  lemma LosingParts(order: seq<Event>, i: nat)
    requires i < |order|
    ensures order[..i + 1] + (Opening(0, 0) + Approach(0, 0)) + [Register(0, Changes(7))]
      + (Approach(0, 1) + order[i + 1..] + [WatcherWakes]) == Losing(order, i)
  {
    hide Opening, Approach;
  }

  lemma NobodyActive(stop: Stop)
    ensures !Active(Stranded(stop), 0) && PlacedOnce(Stranded(stop), 0, 0)
  {
  }

  /** An order after which the flag is off and nothing is left to announce: no run
      with it loses a delivery if and only if the value announced last is the
      flag's. */
  lemma NeverLosesIff(order: seq<Event>)
    requires OnlyCalls(order) && Run(order).stop.sends == multiset{} && !Run(order).stop.engaged
    ensures NeverLoses(order) <==> Run(order).stop.shown == Run(order).stop.engaged
  {
    hide Step;
    if Run(order).stop.shown {
      var i := AnnouncedWasSet(order);
      LosingEnds(order, i);
      LosingCalls(order, i);
      LosingIsClean(order, i);
      CallsAreQuiet(order);
      NobodyActive(Run(order).stop.(dirty := false, collecting := false));
      hide Run, CleanRun, PlacedOnce, Active, StopCalls, Losing;
      assert LooksDone(Run(Losing(order, i)), 0) && 0 in Run(Losing(order, i)).board.placed;
    } else {
      forall es, t: nat, p: nat
        | StopCalls(es) == order && CleanRun(es, t) && LooksDone(Run(es), t) && PlacedOnce(Run(es), t, p)
        ensures t !in Run(es).board.placed
      {
        AgreementTakes(order, es, t, p);
      }
    }
  }

  /** Two calls that overlap: set and lift are stored in this order, and announced
      the other way round, or in the same order. */
  const CROSSED := [SetStop(true), SetStop(false), AnnounceStop(false), AnnounceStop(true)]
  const OVERLAPPING := [SetStop(true), SetStop(false), AnnounceStop(true), AnnounceStop(false)]

  lemma SetsTo(s: State, v: bool)
    ensures Step(s, SetStop(v)).stop == s.stop.(engaged := v, sends := s.stop.sends + multiset{v})
  {
    hide ApplyMerge, ApplyReplay, ApplyTrigger;
  }

  lemma AnnouncesTo(s: State, v: bool)
    requires v in s.stop.sends
    ensures Step(s, AnnounceStop(v)).stop == s.stop.(shown := v, dirty := true, sends := s.stop.sends - multiset{v})
  {
    hide ApplyMerge, ApplyReplay, ApplyTrigger;
  }

  lemma BothCalls(first: bool)
    ensures var s := From(Init(), [SetStop(true), SetStop(false), AnnounceStop(first), AnnounceStop(!first)]);
      s.stop.sends == multiset{} && !s.stop.engaged && s.stop.shown == !first
  {
    Four(Init(), SetStop(true), SetStop(false), AnnounceStop(first), AnnounceStop(!first));
    hide From, Step;
    SetsTo(Init(), true);
    var s1 := Step(Init(), SetStop(true));
    SetsTo(s1, false);
    var s2 := Step(s1, SetStop(false));
    assert s2.stop.sends == multiset{first, !first};
    AnnouncesTo(s2, first);
    var s3 := Step(s2, AnnounceStop(first));
    assert s3.stop.sends == multiset{!first};
    AnnouncesTo(s3, !first);
  }

  /** Of two overlapping calls, those announced crosswise can lose a delivery, those
      announced in order cannot: not to overlap is more than is needed. */
  lemma CrossedAnnouncementsStrand()
    ensures !NeverLoses(CROSSED) && NeverLoses(OVERLAPPING)
  {
    BothCalls(false);
    BothCalls(true);
    FromInit(CROSSED);
    FromInit(OVERLAPPING);
    hide Run, From, NeverLoses;
    NeverLosesIff(CROSSED);
    NeverLosesIff(OVERLAPPING);
  }
}
