/** What the merge trigger does not guarantee: a single merge per task beyond a single
    registration, and, for each condition of its care, an attended queue. */
module MergeTriggerLimits {
  import opened Wrappers
  import opened MergeTrigger
  import opened MergeTriggerSafety
  import opened MergeTriggerQueue
  import opened MergeTriggerRuns

  // ----- One task, two commits -----

  function OnceTaken(): seq<Event> { Opening(0, 0) + Landing(0, 0) }

  function TwiceTaken(): seq<Event> { OnceTaken() + Landing(0, 1) }

  const ONE := [Placement(0, Changes(7))]
  const TWO := [Placement(0, Changes(7)), Placement(0, Changes(7))]

  /** Task 0 of project 0 is done; one start of an attempt is still owed. */
  function Calm(ledger: Ledger, attempts: seq<Attempt>): State {
    State(Board(map[0 := 7], map[0 := Dispatch(0, Phase.Done)], map[], {}, multiset{0}),
      Stop(false, false, multiset{}, false, false, {}),
      Projects({}, map[], map[], map[]), ledger, None, attempts, [])
  }

  lemma OnceTakenIs()
    ensures From(Init(), OnceTaken()) == Calm(Ledger(ONE, [Held(0)], []), [Attempt(0, Taken(0, 7))])
  {
    hide From, Step, Landing, Opening;
    OpensTo(Init(), 0, 0);
    var s := Opened(Init(), 0, 0);
    assert multiset{} + multiset{0} == multiset{0};
    LandsAndTakes(s, 0);
    FromSum(Init(), Opening(0, 0), Landing(0, 0));
    assert InHands(s, 0).ledger == Ledger(ONE, [Held(0)], []);
  }

  lemma TwiceTakenIs()
    ensures From(Init(), TwiceTaken()) ==
      Calm(Ledger(TWO, [Held(0), Held(1)], []), [Attempt(0, Taken(0, 7)), Attempt(0, Taken(1, 7))])
  {
    hide From, Step, Landing, OnceTaken;
    OnceTakenIs();
    var s := Calm(Ledger(ONE, [Held(0)], []), [Attempt(0, Taken(0, 7))]);
    LandsAndTakes(s, 0);
    FromSum(Init(), OnceTaken(), Landing(0, 1));
    assert InHands(s, 0).ledger == Ledger(TWO, [Held(0), Held(1)], []);
    assert InHands(s, 0).attempts == [Attempt(0, Taken(0, 7)), Attempt(0, Taken(1, 7))];
  }

  /** The delivery lands twice; the second attempt is past the merged check before
      the first one merges. */
  function Twice(): seq<Event> { TwiceTaken() + Through(0) + Through(1) }

  /** A task can be committed twice, once for each of its registrations. */
  lemma CommittedTwice()
    ensures Run(Twice()).ledger.commits == [Commit(0, 7), Commit(1, 7)] && Run(Twice()).ledger.placements == TWO
  {
    hide From, TwiceTaken, Through, Run, Step;
    TwiceTakenIs();
    var s := Calm(Ledger(TWO, [Held(0), Held(1)], []), [Attempt(0, Taken(0, 7)), Attempt(0, Taken(1, 7))]);
    Carried(s, 0, 0, 0);
    FromSum(Init(), TwiceTaken(), Through(0));
    var s1 := CarriedOut(s, 0, 0, 0);
    Carried(s1, 1, 0, 1);
    FromSum(Init(), TwiceTaken() + Through(0), Through(1));
    FromInit(Twice());
  }

  /** Nothing overlaps: the first merge meets a conflict, the automatic resolver
      commits its resolution, and only then does the delivery land again. The
      resolver does not enter the merged list. */
  function AfterResolver(): seq<Event> { OnceTaken() + Towards(0) + [Merge(0, Conflicts(true, false)),
    ResolverCommits(0)] }

  function ResolvedTwice(): seq<Event> { AfterResolver() + Landing(0, 1) + Through(1) }

  lemma ResolvedIs()
    ensures From(Init(), AfterResolver()) ==
      Calm(Ledger(ONE, [MergedIn], [Commit(0, 7)]), [Attempt(0, Finished(AutoResolveStarted))])
  {
    hide From, Step, Towards, OnceTaken;
    OnceTakenIs();
    var s := Calm(Ledger(ONE, [Held(0)], []), [Attempt(0, Taken(0, 7))]);
    Arrives(s, 0, 0, 0);
    FromSum(Init(), OnceTaken(), Towards(0));
    var s1 := At(s, 0, 0, InSerial(0, 7)).(serial := Some(ByAttempt(0)));
    Clashes(s1, 0, 0, 0, true, false);
    var s2 := Calm(Ledger(ONE, [Auto], []), [Attempt(0, Finished(AutoResolveStarted))]);
    assert Step(s1, Merge(0, Conflicts(true, false))) == s2;
    Resolves(s2);
    Two(s1, Merge(0, Conflicts(true, false)), ResolverCommits(0));
    FromSum(Init(), OnceTaken() + Towards(0), [Merge(0, Conflicts(true, false)), ResolverCommits(0)]);
  }

  lemma Resolves(s: State)
    requires s == Calm(Ledger(ONE, [Auto], []), [Attempt(0, Finished(AutoResolveStarted))])
    ensures Step(s, ResolverCommits(0)) == s.(ledger := Ledger(ONE, [MergedIn], [Commit(0, 7)]))
  {
    hide ApplyTrigger, ApplyMerge, ApplyLegs;
  }

  lemma CommittedAgainAfterResolver()
    ensures Run(ResolvedTwice()).ledger.commits == [Commit(0, 7), Commit(1, 7)]
      && Run(ResolvedTwice()).ledger.placements == TWO
  {
    hide From, Step, Landing, Through, AfterResolver, Run;
    ResolvedIs();
    var s := Calm(Ledger(ONE, [MergedIn], [Commit(0, 7)]), [Attempt(0, Finished(AutoResolveStarted))]);
    LandsAndTakes(s, 0);
    FromSum(Init(), AfterResolver(), Landing(0, 1));
    var s1 := InHands(s, 0);
    assert s1.ledger.placements == TWO;
    Carried(s1, 1, 0, 1);
    FromSum(Init(), AfterResolver() + Landing(0, 1), Through(1));
    FromInit(ResolvedTwice());
  }

  /** At most one commit per task, in every run with at most `n` registrations of
      it. */
  ghost predicate OneCommitFor(n: nat) {
    forall es, t: nat :: RegistrationsOf(Run(es).ledger, t, |Run(es).ledger.placements|) <= n ==>
      CommitsOf(Run(es).ledger, t, |Run(es).ledger.commits|) <= 1
  }

  lemma TwoOfEach(l: Ledger)
    requires l.placements == TWO && l.commits == [Commit(0, 7), Commit(1, 7)]
    ensures RegistrationsOf(l, 0, 2) == 2 && CommitsOf(l, 0, 2) == 2
  {
    assert RegistrationsOf(l, 0, 1) == 1 && CommitsOf(l, 0, 1) == 1;
  }

  /** One merge per task is guaranteed for one registration, and for no more. */
  lemma OneCommitIff(n: nat)
    ensures OneCommitFor(n) <==> n <= 1
  {
    if n <= 1 {
      forall es, t: nat | RegistrationsOf(Run(es).ledger, t, |Run(es).ledger.placements|) <= n
        ensures CommitsOf(Run(es).ledger, t, |Run(es).ledger.commits|) <= 1
      {
        CommitsAreBounded(es, t);
      }
      hide Run, RegistrationsOf, CommitsOf;
    } else {
      CommittedTwice();
      TwoOfEach(Run(Twice()).ledger);
      hide Run, Twice, RegistrationsOf, CommitsOf;
      assert CommitsOf(Run(Twice()).ledger, 0, |Run(Twice()).ledger.commits|) == 2;
    }
  }

  // ----- A queue nobody sees to -----

  /** The first attempt meets a conflict that freezes the project; the second one
      and one of another task are queued. */
  function Clashed(): seq<Event> { TwiceTaken() + Towards(0) + [Merge(0, Conflicts(false, true))] }

  function OneQueued(): seq<Event> { Clashed() + Deferral(1) }

  function TwoQueued(): seq<Event> { OneQueued() + Opening(1, 0) + Landing(1, 2) + Deferral(2) }

  /** The project is frozen; two attempts are over, the third has the placement of
      task 1, or is over, too. */
  function Freezing(queue: seq<nat>, ledger: Ledger, attempts: seq<Attempt>): State {
    Calm(ledger, attempts).(projects := Projects({0}, map[0 := queue], map[0 := queue], map[]))
  }

  const PARKED := Attempt(0, Finished(ParkedV))
  const DEFERRED := Attempt(0, Finished(FrozenDeferred))

  function AfterClash(): State {
    Calm(Ledger(TWO, [Parked, Held(1)], []),
      [PARKED, Attempt(0, Taken(1, 7))]).(projects := Projects({0}, map[], map[], map[]))
  }

  lemma ClashedIs()
    ensures From(Init(), Clashed()) == AfterClash()
  {
    hide From, Step, Towards, TwiceTaken;
    TwiceTakenIs();
    var s := Calm(Ledger(TWO, [Held(0), Held(1)], []), [Attempt(0, Taken(0, 7)), Attempt(0, Taken(1, 7))]);
    Arrives(s, 0, 0, 0);
    FromSum(Init(), TwiceTaken(), Towards(0));
    var s1 := At(s, 0, 0, InSerial(0, 7)).(serial := Some(ByAttempt(0)));
    assert ProjectOf(s1.board, s1.ledger, 0) == 0;
    Clashes(s1, 0, 0, 0, false, true);
    FromSnoc(Init(), TwiceTaken() + Towards(0), Merge(0, Conflicts(false, true)));
    var s2 := Step(s1, Merge(0, Conflicts(false, true)));
    assert s2.attempts == [PARKED, Attempt(0, Taken(1, 7))] && s2.ledger == Ledger(TWO, [Parked, Held(1)], []);
    assert s2.projects == Projects({0}, map[], map[], map[]);
  }

  lemma OneQueuedIs()
    ensures From(Init(), OneQueued()) == Freezing([1], Ledger(TWO, [Parked, Queued], []), [PARKED, DEFERRED])
  {
    hide From, Step, Clashed, Deferral;
    ClashedIs();
    var s := AfterClash();
    assert ProjectOf(s.board, s.ledger, 1) == 0 && Queue(s.projects.queues, 0) == [];
    Defers(s, 1, 0, 1);
    FromSum(Init(), Clashed(), Deferral(1));
    var s1 := InQueue(s, 1, 0, 1);
    assert Queue(s.projects.queues, 0) + [1] == [1] && Queue(s.projects.arrived, 0) + [1] == [1];
    assert s1.attempts == [PARKED, DEFERRED] && s1.ledger == Ledger(TWO, [Parked, Queued], []);
    assert s1.projects == Projects({0}, map[0 := [1]], map[0 := [1]], map[]);
  }

  const THREE := [Placement(0, Changes(7)), Placement(0, Changes(7)), Placement(1, Changes(7))]

  function AfterTwo(): State {
    Freezing([1, 2], Ledger(THREE, [Parked, Queued, Queued], []),
      [PARKED, DEFERRED, Attempt(1, Finished(FrozenDeferred))])
      .(board := Board(map[0 := 7, 1 := 7], map[0 := Dispatch(0, Phase.Done), 1 := Dispatch(0, Phase.Done)], map[], {},
        multiset{0, 1}))
  }

  function BeforeSecond(): State {
    AfterTwo().(attempts := [PARKED, DEFERRED, Attempt(1, Taken(2, 7))],
      ledger := Ledger(THREE, [Parked, Queued, Held(2)], []),
      projects := Projects({0}, map[0 := [1]], map[0 := [1]], map[]))
  }

  lemma SecondTaken()
    ensures From(Init(), OneQueued() + Opening(1, 0) + Landing(1, 2)) == BeforeSecond()
  {
    hide From, Step, OneQueued, Opening, Landing;
    OneQueuedIs();
    var s := Freezing([1], Ledger(TWO, [Parked, Queued], []), [PARKED, DEFERRED]);
    OpensTo(s, 1, 0);
    FromSum(Init(), OneQueued(), Opening(1, 0));
    var s1 := Opened(s, 1, 0);
    assert multiset{0} + multiset{1} == multiset{0, 1};
    LandsAndTakes(s1, 1);
    FromSum(Init(), OneQueued() + Opening(1, 0), Landing(1, 2));
    var s2 := InHands(s1, 1);
    assert s2.ledger == BeforeSecond().ledger && s2.attempts == BeforeSecond().attempts;
    assert s2.board == BeforeSecond().board;
  }

  lemma TwoQueuedIs()
    ensures From(Init(), TwoQueued()) == AfterTwo()
  {
    hide From, Step, OneQueued, Opening, Landing, Deferral;
    SecondTaken();
    var s := BeforeSecond();
    assert ProjectOf(s.board, s.ledger, 2) == 0 && Queue(s.projects.queues, 0) == [1];
    Defers(s, 2, 1, 2);
    FromSum(Init(), OneQueued() + Opening(1, 0) + Landing(1, 2), Deferral(2));
    var s1 := InQueue(s, 2, 1, 2);
    assert s1.attempts == AfterTwo().attempts && s1.ledger == AfterTwo().ledger;
    assert Queue(s.projects.queues, 0) + [2] == [1, 2] && Queue(s.projects.arrived, 0) + [2] == [1, 2];
    assert s1.projects == AfterTwo().projects;
  }

  /** Events without a say about thaw, replay and restart. */
  predicate Plain(e: Event) { !e.StartReplay? && !e.Pop? && !e.ReplayMerge? && !e.Restart? }

  lemma PlainIsCareful(es: seq<Event>)
    requires forall k :: 0 <= k < |es| ==> Plain(es[k])
    ensures CarefulRun(es, 0)
  {
    hide Run;
    forall k | 0 <= k < |es| ensures Careful(Run(es[..k]), es[k], 0) {
      assert Plain(es[k]);
    }
  }

  predicate AllPlain(es: seq<Event>) { forall k :: 0 <= k < |es| ==> Plain(es[k]) }

  lemma ArePlain(a: nat, t: nat)
    ensures AllPlain(Opening(t, 0)) && AllPlain(Landing(t, a)) && AllPlain(Towards(a)) && AllPlain(Deferral(a))
  {
  }

  lemma QueuedCarefully()
    ensures CarefulRun(TwoQueued(), 0) && CarefulRun(Clashed() + [Resolve(1, true), CheckFrozen(1, true)], 0)
  {
    ArePlain(0, 0);
    ArePlain(1, 0);
    ArePlain(2, 1);
    hide Opening, Landing, Towards, Deferral;
    assert Plain(Merge(0, Conflicts(false, true))) && Plain(Resolve(1, true)) && Plain(CheckFrozen(1, true));
    assert AllPlain(Clashed());
    PlainIsCareful(Clashed() + [Resolve(1, true), CheckFrozen(1, true)]);
    PlainIsCareful(TwoQueued());
  }

  /** The thaw goes through and the replay stands in front of the queue. */
  function Thawed(): State {
    AfterTwo().(projects := Projects({}, map[0 := [1, 2]], map[0 := [1, 2]], map[]), replays := [Replay(0, Popping)])
  }

  lemma ThawIs()
    ensures From(Init(), TwoQueued() + [StartReplay(0, true)]) == Thawed()
  {
    TwoQueuedIs();
    FromSnoc(Init(), TwoQueued(), StartReplay(0, true));
    hide From, TwoQueued, Step;
    StartsReplay(AfterTwo(), 0);
    assert AfterTwo().projects.frozen - {0} == {};
  }

  lemma NobodyAbout()
    ensures Careful(AfterTwo(), StartReplay(0, true), 0)
  {
  }

  /** Its first entry is in the serial section. */
  function InReplay(): State {
    Thawed().(projects := Projects({}, map[0 := [2]], map[0 := [1, 2]], map[0 := [1]]),
      replays := [Replay(0, ReplaySerial(1))],
      ledger := Ledger(THREE, [Parked, Replaying(0), Queued], []), serial := Some(ByReplay(0)))
  }

  /** The entry popped. */
  function InHand(): State { InReplay().(replays := [Replay(0, Popped(1))], serial := None) }

  lemma InReplayIs()
    ensures From(Init(), TwoQueued() + [StartReplay(0, true)] + [Pop(0, true), ReplayIssue(0, true)]) == InReplay()
  {
    ThawIs();
    FromSum(Init(), TwoQueued() + [StartReplay(0, true)], [Pop(0, true), ReplayIssue(0, true)]);
    Two(Thawed(), Pop(0, true), ReplayIssue(0, true));
    hide From, TwoQueued, Step;
    PoppedIs();
    assert Known(InHand().board, InHand().ledger, 1);
    Issues(InHand(), 0, 0, 1);
  }

  lemma PoppedIs()
    ensures Step(Thawed(), Pop(0, true)) == InHand()
  {
    hide Step;
    Pops(Thawed(), 0, 0);
    assert Queue(Thawed().projects.queues, 0) == [1, 2] && [1, 2][1..] == [2]
      && Queue(Thawed().projects.served, 0) + [1] == [1];
    assert Dequeued(Thawed().projects, 0) == InHand().projects;
    assert Thawed().ledger.places[1 := Replaying(0)] == InHand().ledger.places;
  }

  /** Behind a careful run, the event of this kind leaves the queue to nobody. */
  ghost predicate BreaksIt(es: seq<Event>, e: Event) {
    CarefulRun(es, 0) && !Careful(Run(es), e, 0) && !Attended(Run(es + [e]), 0)
  }

  /** A careful run goes on with a careful event. */
  lemma CarefulSnoc(es: seq<Event>, e: Event, j: nat)
    requires CarefulRun(es, j) && Careful(Run(es), e, j)
    ensures CarefulRun(es + [e], j)
  {
    hide Run, Careful;
    var all := es + [e];
    assert all[..|es|] == es;
    forall k | 0 <= k < |all| ensures Careful(Run(all[..k]), all[k], j) {
      if k < |es| {
        assert all[..k] == es[..k];
      }
    }
  }

  lemma Breaks(es: seq<Event>, e: Event)
    requires CarefulRun(es, 0) && !Careful(Run(es), e, 0) && Strands(Run(es), e, 0)
    ensures BreaksIt(es, e)
  {
    RunKeepsInv(es);
    CarefulIsAttended(es, 0);
    hide CarefulRun, Careful, Inv, Attended;
    assert Enabled(Run(es), e) by { hide Run; }
    StepAttended(Run(es), e, 0);
    assert (es + [e])[..|es|] == es;
    hide Strands, Enabled, Apply;
  }

  /** The commit behind the thaw fails. */
  lemma FailedCommitStrands()
    ensures BreaksIt(TwoQueued(), StartReplay(0, false))
  {
    TwoQueuedIs();
    FromInit(TwoQueued());
    QueuedCarefully();
    hide From, Run, TwoQueued;
    assert Strands(AfterTwo(), StartReplay(0, false), 0) && !Careful(AfterTwo(), StartReplay(0, false), 0);
    Breaks(TwoQueued(), StartReplay(0, false));
  }

  lemma ThawIsCareful()
    ensures CarefulRun(TwoQueued() + [StartReplay(0, true)], 0) && Run(TwoQueued() + [StartReplay(0, true)]) == Thawed()
  {
    TwoQueuedIs();
    FromInit(TwoQueued());
    ThawIs();
    FromInit(TwoQueued() + [StartReplay(0, true)]);
    QueuedCarefully();
    NobodyAbout();
    hide From, Run, TwoQueued, CarefulRun, Careful, Step;
    CarefulSnoc(TwoQueued(), StartReplay(0, true), 0);
  }

  /** A pop fails. */
  lemma FailedPopStrands()
    ensures BreaksIt(TwoQueued() + [StartReplay(0, true)], Pop(0, false))
  {
    ThawIsCareful();
    hide Run, TwoQueued, CarefulRun;
    assert Strands(Thawed(), Pop(0, false), 0) && !Careful(Thawed(), Pop(0, false), 0);
    Breaks(TwoQueued() + [StartReplay(0, true)], Pop(0, false));
  }

  /** The process ends in the middle of a replay. */
  lemma RestartStrands()
    ensures BreaksIt(TwoQueued() + [StartReplay(0, true)], Restart(false))
  {
    ThawIsCareful();
    hide Run, TwoQueued, CarefulRun;
    assert AtWork(Thawed(), 0, 0);
    assert Strands(Thawed(), Restart(false), 0) && !Careful(Thawed(), Restart(false), 0);
    Breaks(TwoQueued() + [StartReplay(0, true)], Restart(false));
  }

  lemma InReplayIsCareful()
    ensures var es := TwoQueued() + [StartReplay(0, true)] + [Pop(0, true), ReplayIssue(0, true)];
      CarefulRun(es, 0) && Run(es) == InReplay()
  {
    var es := TwoQueued() + [StartReplay(0, true)];
    ThawIsCareful();
    InReplayIs();
    FromInit(es + [Pop(0, true), ReplayIssue(0, true)]);
    assert es + [Pop(0, true)] + [ReplayIssue(0, true)] == es + [Pop(0, true), ReplayIssue(0, true)];
    hide From, Run, TwoQueued, CarefulRun, Step;
    CarefulSnoc(es, Pop(0, true), 0);
    CarefulSnoc(es + [Pop(0, true)], ReplayIssue(0, true), 0);
  }

  /** A conflict ends the replay, and the freeze mark cannot be set. */
  lemma UnmarkedConflictStrands()
    ensures BreaksIt(TwoQueued() + [StartReplay(0, true)] + [Pop(0, true), ReplayIssue(0, true)],
      ReplayMerge(0, Conflicts(false, false)))
  {
    InReplayIsCareful();
    hide Run, TwoQueued, CarefulRun;
    var e := ReplayMerge(0, Conflicts(false, false));
    assert Unmarked(InReplay(), 0, Conflicts(false, false));
    assert Strands(InReplay(), e, 0) && !Careful(InReplay(), e, 0);
    Breaks(TwoQueued() + [StartReplay(0, true)] + [Pop(0, true), ReplayIssue(0, true)], e);
  }

  // ----- A deferral that comes too late -----

  /** An attempt has seen the freeze. */
  function SawFreeze(): State { AfterClash().(attempts := [PARKED, Attempt(0, Deferring(1, 7))]) }

  lemma SawFreezeIs()
    ensures Run(Clashed() + [Resolve(1, true), CheckFrozen(1, true)]) == SawFreeze()
  {
    hide From, Step, Clashed, Run;
    ClashedIs();
    var s := AfterClash();
    assert ProjectOf(s.board, s.ledger, 1) == 0;
    MovesOn(s, 1, 0, 1, Taken(1, 7), Resolve(1, true), Resolved(1, 7));
    var s1 := At(s, 1, 0, Resolved(1, 7));
    assert ProjectOf(s1.board, s1.ledger, 1) == 0;
    MovesOn(s1, 1, 0, 1, Resolved(1, 7), CheckFrozen(1, true), Deferring(1, 7));
    Two(s, Resolve(1, true), CheckFrozen(1, true));
    FromSum(Init(), Clashed(), [Resolve(1, true), CheckFrozen(1, true)]);
    FromInit(Clashed() + [Resolve(1, true), CheckFrozen(1, true)]);
    assert At(s1, 1, 0, Deferring(1, 7)).attempts == SawFreeze().attempts;
  }

  function Thawing(pc: ReplayPc): State { SawFreeze().(projects := Projects({}, map[], map[], map[]),
    replays := [Replay(0, pc)]) }

  lemma ThawAndDefer()
    ensures var n := Step(Step(Step(SawFreeze(), StartReplay(0, true)), Pop(0, true)), Defer(1, true));
      QueueOf(n, 0) == [1] && n.projects.frozen == {} && n.replays == [Replay(0, Ended)]
        && n.attempts == [PARKED, DEFERRED]
  {
    hide Step;
    StartsReplay(SawFreeze(), 0);
    assert SawFreeze().projects.frozen - {0} == {};
    assert Step(SawFreeze(), StartReplay(0, true)) == Thawing(Popping);
    Pops(Thawing(Popping), 0, 0);
    var s := Thawing(Ended);
    assert Queue(Thawing(Popping).projects.queues, 0) == [];
    assert Step(Thawing(Popping), Pop(0, true)) == s;
    assert ProjectOf(s.board, s.ledger, 1) == 0 && Queue(s.projects.queues, 0) == [];
    DeferStep(s, 1, 0, 1);
    assert Queue(s.projects.queues, 0) + [1] == [1];
    assert At(s, 1, 0, Finished(FrozenDeferred)).attempts == [PARKED, DEFERRED];
  }

  /** Nobody is left at work behind the deferral. */
  lemma LateDeferral()
    ensures var n :=
      Run(Clashed() + [Resolve(1, true), CheckFrozen(1, true)] + [StartReplay(0, true), Pop(0, true), Defer(1, true)]);
      QueueOf(n, 0) == [1] && n.projects.frozen == {} && n.replays == [Replay(0, Ended)]
        && n.attempts == [PARKED, DEFERRED]
  {
    var es, more := Clashed() + [Resolve(1, true), CheckFrozen(1, true)],
      [StartReplay(0, true), Pop(0, true), Defer(1, true)];
    SawFreezeIs();
    FromInit(es);
    FromInit(es + more);
    FromSum(Init(), es, more);
    Three(SawFreeze(), StartReplay(0, true), Pop(0, true), Defer(1, true));
    hide Run, From, Step, Clashed, SawFreeze;
    ThawAndDefer();
  }

  /** The thaw comes between the freeze check of an attempt and its deferral: the
      replay finds an empty queue and ends, and only then the placement is queued,
      with no thread left at work. */
  lemma QueuedInThawedProject()
    ensures CarefulRun(Clashed() + [Resolve(1, true), CheckFrozen(1, true)], 0)
    ensures !Careful(Run(Clashed() + [Resolve(1, true), CheckFrozen(1, true)]), StartReplay(0, true), 0)
    ensures var n :=
      Run(Clashed() + [Resolve(1, true), CheckFrozen(1, true)] + [StartReplay(0, true), Pop(0, true), Defer(1, true)]);
      && QueueOf(n, 0) == [1] && !Attended(n, 0) && !Enabled(n, StartReplay(0, true))
          && n.attempts == [PARKED, DEFERRED]
  {
    QueuedCarefully();
    SawFreezeIs();
    assert AboutToDefer(SawFreeze(), 1, 0);
    hide Run, Clashed, CarefulRun, SawFreeze;
    LateDeferral();
  }
}
