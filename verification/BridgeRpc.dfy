/** Requests over the bridge: the table of requests in flight on one channel, and
    the routing of frames between the hub and its devices. */
module BridgeRpc {
  import opened Wrappers

  datatype Kind = Request | Response | Error | Other
  datatype Wire = Wire(id: string, from: string, to: string, kind: Kind)

  predicate IsResponse(w: Wire) { w.kind.Response? || w.kind.Error? }

  // ----- The pending table, one lock section at a time -----

  /** Waiters by request id; each is named by the number of its request. */
  datatype Table = Table(pending: map<string, nat>) {
    function Waiter(id: string): Option<nat> { if id in pending then Some(pending[id]) else None }
    function Insert(id: string, n: nat): Table { Table(pending[id := n]) }
    function Without(id: string): Table { Table(pending - {id}) }
    function Cleared(): Table { Table(map[]) }
  }

  /** The table changed in place, as the transition system below changes it. */
  class BridgeRpcChannel {
    var pending: map<string, nat>

    ghost function View(): Table
      reads this
    {
      Table(pending)
    }

    constructor ()
      ensures View() == Init().table
    {
      pending := map[];
    }

    /** What sending a request starts with. */
    method Insert(id: string, n: nat)
      modifies this
      ensures View() == old(View()).Insert(id, n)
      ensures forall x :: View().Waiter(x) == if x == id then Some(n) else old(View()).Waiter(x)
    {
      pending := pending[id := n];
    }

    /** What a failed send and a timeout end with: the request has no entry left,
        all others keep theirs, and a frame that comes later wakes nobody. */
    method Remove(id: string)
      modifies this
      ensures View() == old(View()).Without(id)
      ensures forall x :: View().Waiter(x) == if x == id then None else old(View()).Waiter(x)
    {
      pending := pending - {id};
    }

    /** Takes the waiter of the frame's id out; none for a late or unknown one. Of
        two frames with the same id only the first wakes anybody. */
    method Deliver(resp: Wire) returns (woken: Option<nat>)
      modifies this
      ensures woken == old(View()).Waiter(resp.id)
      ensures View() == old(View()).Without(resp.id)
      ensures forall x :: View().Waiter(x) == if x == resp.id then None else old(View()).Waiter(x)
    {
      woken := if resp.id in pending then Some(pending[resp.id]) else None;
      pending := pending - {resp.id};
    }

    /** The session ends: no request has an entry any more. */
    method Clear()
      modifies this
      ensures View() == old(View()).Cleared()
      ensures forall x :: View().Waiter(x) == None
    {
      pending := map[];
    }
  }

  // ----- Requests on one channel as a transition system -----

  datatype Result = Frame(w: Wire) | LinkUnreachable | LinkDead | TimedOut

  datatype Stage =
    | Registered            // in the table, frame not sent yet
    | Unsent                // sending failed, entry to be removed
    | Waiting
    | Elapsed               // the wait ran out, entry to be removed
    | Returned(result: Result)
    | Abandoned             // the caller dropped the whole request

  /** The one-shot channel of a request. */
  datatype Slot = Open | Filled(w: Wire) | Closed

  datatype Call = Call(id: string, stage: Stage, slot: Slot)

  datatype State = State(calls: seq<Call>, table: Table)

  datatype Event =
    | Register(id: string)
    | Send(n: nat, ok: bool)
    | Undo(n: nat)
    | Wake(n: nat)
    | Timeout(n: nat)
    | GiveUp(n: nat)
    | Abandon(n: nat)
    | Deliver(w: Wire)
    | Clear

  function Init(): State { State([], Table(map[])) }

  predicate At(s: State, n: nat, stage: Stage) { n < |s.calls| && s.calls[n].stage == stage }

  /** Request ids are never used twice. */
  predicate Enabled(s: State, e: Event) {
    match e
    case Register(id) => forall n :: 0 <= n < |s.calls| ==> s.calls[n].id != id
    case Send(n, _) => At(s, n, Registered)
    case Undo(n) => At(s, n, Unsent)
    case Wake(n) => At(s, n, Waiting) && !s.calls[n].slot.Open?
    case Timeout(n) => At(s, n, Waiting) && s.calls[n].slot.Open?
    case GiveUp(n) => At(s, n, Elapsed)
    case Abandon(n) => n < |s.calls| && !s.calls[n].stage.Returned?
    case Deliver(w) => IsResponse(w) && (w.id in s.table.pending ==> s.table.pending[w.id] < |s.calls|)
    case Clear => true
  }

  function To(s: State, n: nat, stage: Stage): State
    requires n < |s.calls|
  {
    s.(calls := s.calls[n := s.calls[n].(stage := stage)])
  }

  function Without(s: State, n: nat): State
    requires n < |s.calls|
  {
    s.(table := s.table.Without(s.calls[n].id))
  }

  function Shut(s: State, n: nat): Call
    requires n < |s.calls|
  {
    if n in s.table.pending.Values && s.calls[n].slot.Open? then s.calls[n].(slot := Closed) else s.calls[n]
  }

  function Apply(s: State, e: Event): State
    requires Enabled(s, e)
  {
    match e
    case Register(id) => State(s.calls + [Call(id, Registered, Open)], s.table.Insert(id, |s.calls|))
    case Send(n, ok) => To(s, n, if ok then Waiting else Unsent)
    case Undo(n) => Without(To(s, n, Returned(LinkUnreachable)), n)
    case Wake(n) => To(s, n, Returned(if s.calls[n].slot.Filled? then Frame(s.calls[n].slot.w) else LinkDead))
    case Timeout(n) => To(s, n, Elapsed)
    case GiveUp(n) => Without(To(s, n, Returned(TimedOut)), n)
    case Abandon(n) => To(s, n, Abandoned)
    case Deliver(w) =>
      var n := s.table.Waiter(w.id);
      if n.None? then s
      else State(s.calls[n.value := s.calls[n.value].(slot := Filled(w))], s.table.Without(w.id))
    case Clear => State(seq(|s.calls|, i requires 0 <= i < |s.calls| => Shut(s, i)), s.table.Cleared())
  }

  function Step(s: State, e: Event): State { if Enabled(s, e) then Apply(s, e) else s }

  function Run(es: seq<Event>): State {
    if es == [] then Init() else Step(Run(es[..|es| - 1]), es[|es| - 1])
  }

  /** A table entry is the caller's own, its slot is still open, and the caller
      has not returned. */
  ghost predicate EntryOk(s: State, id: string)
    requires id in s.table.pending
  {
    var n := s.table.pending[id];
    n < |s.calls| && s.calls[n].id == id && s.calls[n].slot.Open? && !s.calls[n].stage.Returned?
  }

  ghost predicate CallOk(s: State, n: nat)
    requires n < |s.calls|
  {
    var c := s.calls[n];
    && (c.slot.Filled? ==> IsResponse(c.slot.w) && c.slot.w.id == c.id)
    && (c.slot.Open? && !c.stage.Returned? ==> c.id in s.table.pending && s.table.pending[c.id] == n)
    && (c.stage.Returned? && c.stage.result.Frame? ==> c.slot == Filled(c.stage.result.w))
    && (c.stage == Returned(LinkDead) ==> c.slot == Closed)
  }

  ghost predicate Inv(s: State) {
    && (forall id :: id in s.table.pending ==> EntryOk(s, id))
    && (forall n :: 0 <= n < |s.calls| ==> CallOk(s, n))
    && (forall m, n :: 0 <= m < n < |s.calls| ==> s.calls[m].id != s.calls[n].id)
  }

  /** The number an event is about. */
  function About(s: State, e: Event): Option<nat> {
    match e
    case Register(_) => None
    case Deliver(w) => if w.id in s.table.pending then Some(s.table.pending[w.id]) else None
    case Clear => None
    case _ => Some(e.n)
  }

  lemma StepEntry(s: State, e: Event, id: string)
    requires Inv(s) && Enabled(s, e) && id in Apply(s, e).table.pending
    ensures EntryOk(Apply(s, e), id)
  {
    assert id in s.table.pending ==> EntryOk(s, id);
    if About(s, e).Some? {
      var n := About(s, e).value;
      assert e.Deliver? ==> EntryOk(s, e.w.id);
      assert n < |s.calls| && CallOk(s, n);
    }
  }

  lemma StepCall(s: State, e: Event, n: nat)
    requires Inv(s) && Enabled(s, e) && n < |Apply(s, e).calls|
    ensures CallOk(Apply(s, e), n)
  {
    assert n < |s.calls| ==> CallOk(s, n);
    assert e.Deliver? && e.w.id in s.table.pending ==> EntryOk(s, e.w.id);
    assert e.Clear? && n < |s.calls| && s.calls[n].id in s.table.pending ==> EntryOk(s, s.calls[n].id);
    if e.Clear? && n < |s.calls| && s.calls[n].slot.Open? && !s.calls[n].stage.Returned? {
      assert s.table.pending[s.calls[n].id] == n;
      assert n in s.table.pending.Values;
    }
    if e.Register? && n < |s.calls| {
      assert s.calls[n].id != e.id;
    }
    if About(s, e).Some? && n < |s.calls| && About(s, e).value < |s.calls| && About(s, e) != Some(n) {
      assert s.calls[n].id != s.calls[About(s, e).value].id;
    }
  }

  lemma StepIds(s: State, e: Event)
    requires Inv(s) && Enabled(s, e)
    ensures var t := Apply(s, e); forall m, n :: 0 <= m < n < |t.calls| ==> t.calls[m].id != t.calls[n].id
  {
    var t := Apply(s, e);
    assert e.Deliver? && e.w.id in s.table.pending ==> EntryOk(s, e.w.id);
    assert |s.calls| <= |t.calls| && forall n :: 0 <= n < |s.calls| ==> t.calls[n].id == s.calls[n].id;
  }

  lemma StepKeepsInv(s: State, e: Event)
    requires Inv(s) && Enabled(s, e)
    ensures Inv(Apply(s, e))
  {
    hide EntryOk, CallOk;
    var t := Apply(s, e);
    forall id | id in t.table.pending ensures EntryOk(t, id) { StepEntry(s, e, id); }
    forall n | 0 <= n < |t.calls| ensures CallOk(t, n) { StepCall(s, e, n); }
    StepIds(s, e);
    hide Apply, Enabled;
  }

  lemma {:induction false} RunKeepsInv(es: seq<Event>)
    ensures Inv(Run(es))
  {
    hide Apply, Enabled;
    if es != [] {
      RunKeepsInv(es[..|es| - 1]);
      if Enabled(Run(es[..|es| - 1]), es[|es| - 1]) {
        StepKeepsInv(Run(es[..|es| - 1]), es[|es| - 1]);
      }
    }
  }

  /** A request that has returned has no entry left, whichever way it ended, and
      if it returned a frame, that is a response with its own id. */
  lemma ReturnedIsClean(es: seq<Event>, n: nat)
    requires n < |Run(es).calls| && Run(es).calls[n].stage.Returned?
    ensures var s, c := Run(es), Run(es).calls[n];
      && c.id !in s.table.pending && (forall id :: id in s.table.pending ==> s.table.pending[id] != n)
      && (c.stage.result.Frame? ==> IsResponse(c.stage.result.w) && c.stage.result.w.id == c.id)
  {
    RunKeepsInv(es);
    hide Run;
    var s, c := Run(es), Run(es).calls[n];
    assert CallOk(s, n);
    forall id | id in s.table.pending ensures s.table.pending[id] != n {
      assert EntryOk(s, id);
    }
    assert c.id in s.table.pending ==> EntryOk(s, c.id);
  }

  lemma RunSplits(es: seq<Event>, e: Event)
    ensures Run(es + [e]) == Step(Run(es), e)
  {
    assert (es + [e])[..|es|] == es;
  }

  /** A request returns once: its result never changes, and its entry never
      comes back. */
  lemma {:induction false} ReturnsOnce(es: seq<Event>, more: seq<Event>, n: nat)
    requires n < |Run(es).calls| && Run(es).calls[n].stage.Returned?
    ensures n < |Run(es + more).calls| && Run(es + more).calls[n].stage == Run(es).calls[n].stage
    decreases |more|
  {
    hide Apply, Enabled;
    if more == [] {
      assert es + more == es;
    } else {
      var before, e := es + more[..|more| - 1], more[|more| - 1];
      ReturnsOnce(es, more[..|more| - 1], n);
      assert es + more == before + [e];
      RunSplits(before, e);
      if Enabled(Run(before), e) {
        ReturnStays(Run(before), e, n);
      }
    }
  }

  lemma ReturnStays(s: State, e: Event, n: nat)
    requires Enabled(s, e) && n < |s.calls| && s.calls[n].stage.Returned?
    ensures n < |Apply(s, e).calls| && Apply(s, e).calls[n].stage == s.calls[n].stage
  {
  }

  /** The frame a request returned was delivered while the request was pending. */
  lemma {:induction false} FrameWasDelivered(es: seq<Event>, n: nat) returns (k: nat)
    requires n < |Run(es).calls| && Run(es).calls[n].slot.Filled?
    ensures k < |es| && es[k] == Deliver(Run(es).calls[n].slot.w)
    ensures es[k].w.id in Run(es[..k]).table.pending && Run(es[..k]).table.pending[es[k].w.id] == n
  {
    hide Apply, Enabled;
    var before, e := es[..|es| - 1], es[|es| - 1];
    FillStep(Run(before), e, n);
    if n < |Run(before).calls| && Run(before).calls[n].slot == Run(es).calls[n].slot {
      k := FrameWasDelivered(before, n);
      assert before[..k] == es[..k];
    } else {
      k := |es| - 1;
    }
  }

  /** A request returns a frame only if that very frame, with its own id, was
      delivered while the request was in the table. */
  lemma ReturnedFrameWasDelivered(es: seq<Event>, n: nat, w: Wire) returns (k: nat)
    requires n < |Run(es).calls| && Run(es).calls[n].stage == Returned(Frame(w))
    ensures k < |es| && es[k] == Deliver(w) && w.id == Run(es).calls[n].id
    ensures w.id in Run(es[..k]).table.pending && Run(es[..k]).table.pending[w.id] == n
  {
    RunKeepsInv(es);
    assert CallOk(Run(es), n);
    hide Run;
    k := FrameWasDelivered(es, n);
  }

  lemma FillStep(s: State, e: Event, n: nat)
    requires n < |Step(s, e).calls| && Step(s, e).calls[n].slot.Filled?
    ensures (n < |s.calls| && s.calls[n].slot == Step(s, e).calls[n].slot)
      || (e == Deliver(Step(s, e).calls[n].slot.w) && e.w.id in s.table.pending && s.table.pending[e.w.id] == n)
  {
  }

  /** Only a caller that drops its request can leave an entry behind. */
  lemma EntryMeansUnfinished(es: seq<Event>, n: nat)
    requires n < |Run(es).calls| && Run(es).calls[n].id in Run(es).table.pending
    ensures !Run(es).calls[n].stage.Returned?
  {
    if Run(es).calls[n].stage.Returned? {
      ReturnedIsClean(es, n);
    }
  }

  // ----- Routing between the hub and its devices -----

  type Link = nat

  /** What the nodes know while one frame is handled. `bridgeOf` is the mapping
      from cluster ids to links, `accepting` the links whose outbound queue takes
      a frame, `hubPending` the ids of the hub's own requests, `answer` what a
      node's local handlers reply. */
  datatype World = World(
    hubId: string, bridgeOf: map<string, Link>, online: set<Link>, accepting: set<Link>,
    selfId: Link -> string, hubPending: set<string>, answer: Wire -> Wire)

  datatype InFlight = AtHub(via: Link, w: Wire) | AtDevice(link: Link, w: Wire)

  datatype Next = Go(frame: InFlight) | Woken | Dropped

  function ForwardTo(o: World, to: string, from: Option<Link>): Option<Link> {
    if to !in o.bridgeOf then None
    else
      var b := o.bridgeOf[to];
      if from == Some(b) || b !in o.online || b !in o.accepting then None else Some(b)
  }

  /** The hub's treatment of a frame from a device. */
  function OnClusterFrame(o: World, via: Link, w: Wire): Next {
    if IsResponse(w) then
      if w.id in o.hubPending then Woken
      else if w.to == "" || w.to == o.hubId then Dropped
      else
        match ForwardTo(o, w.to, None)
        case None => Dropped
        case Some(b) => Go(AtDevice(b, w))
    else if !w.kind.Request? then Dropped
    else if w.to != "" && w.to != o.hubId then
      match ForwardTo(o, w.to, Some(via))
      case Some(b) => Go(AtDevice(b, w))
      case None => Go(AtDevice(via, w.(kind := Error)))
    else Go(AtDevice(via, o.answer(w)))
  }

  /** The device's treatment of a frame from the hub. */
  function HandleDownstream(o: World, link: Link, w: Wire): Next {
    if IsResponse(w) then Woken
    else if !w.kind.Request? then Dropped
    else if w.to != "" && w.to != o.selfId(link) then Go(AtHub(link, w.(kind := Error)))
    else Go(AtHub(link, o.answer(w)))
  }

  function Hop(o: World, f: InFlight): Next {
    match f
    case AtHub(via, w) => OnClusterFrame(o, via, w)
    case AtDevice(link, w) => HandleDownstream(o, link, w)
  }

  /** Local handlers answer a request with a response or an error. */
  ghost predicate Answers(o: World) { forall w: Wire :: w.kind.Request? ==> IsResponse(o.answer(w)) }

  ghost predicate AllAnswer(worlds: nat -> World) { forall j :: Answers(worlds(j)) }

  /** How many hops a frame can still cause. */
  function Rank(f: InFlight): nat {
    match f
    case AtHub(_, w) => if w.kind.Request? then 4 else if IsResponse(w) then 2 else 1
    case AtDevice(_, w) => if w.kind.Request? then 3 else 1
  }

  /** What becomes of a frame when hop `k` meets the world `worlds(k)`. */
  ghost function Chain(worlds: nat -> World, f: InFlight, k: nat): seq<InFlight>
    requires AllAnswer(worlds)
    decreases Rank(f)
  {
    match Hop(worlds(k), f)
    case Go(g) =>
      HopLowersRank(worlds(k), f);
      [f] + Chain(worlds, g, k + 1)
    case _ => [f]
  }

  lemma HopLowersRank(o: World, f: InFlight)
    requires Answers(o) && Hop(o, f).Go?
    ensures Rank(Hop(o, f).frame) < Rank(f)
  {
  }

  /** Whatever changes between the hops, a frame causes at most three more. */
  lemma {:induction false} ChainIsShort(worlds: nat -> World, f: InFlight, k: nat)
    requires AllAnswer(worlds)
    ensures 1 <= |Chain(worlds, f, k)| <= Rank(f) <= 4
    decreases Rank(f)
  {
    if Hop(worlds(k), f).Go? {
      HopLowersRank(worlds(k), f);
      ChainIsShort(worlds, Hop(worlds(k), f).frame, k + 1);
    }
  }

  predicate RequestAt(chain: seq<InFlight>, i: nat) { i < |chain| && chain[i].w.kind.Request? }

  /** Each hop leaves less to come. */
  lemma {:induction false} RanksFall(worlds: nat -> World, f: InFlight, k: nat, i: nat)
    requires AllAnswer(worlds) && i < |Chain(worlds, f, k)|
    ensures Rank(Chain(worlds, f, k)[i]) + i <= Rank(f)
    decreases i
  {
    ChainUnfolds(worlds, f, k);
    if i > 0 {
      HopLowersRank(worlds(k), f);
      hide Chain, Hop, AllAnswer, Answers, Rank;
      RanksFall(worlds, Hop(worlds(k), f).frame, k + 1, i - 1);
    } else {
      ChainStarts(worlds, f, k);
    }
  }

  /** In a chain, a request is handed on at most once: by the hub, unchanged, and
      over another link than it came from. */
  lemma RequestHandedOnOnce(worlds: nat -> World, f: InFlight, k: nat, i: nat)
    requires AllAnswer(worlds)
    requires 0 < i && RequestAt(Chain(worlds, f, k), i)
    ensures i == 1 && f.AtHub? && f.w.kind.Request?
    ensures var g := Chain(worlds, f, k)[i]; g.AtDevice? && g.w == f.w && g.link != f.via
  {
    RanksFall(worlds, f, k, i);
    ChainUnfolds(worlds, f, k);
    ChainStarts(worlds, Hop(worlds(k), f).frame, k + 1);
    hide Chain, AllAnswer;
    assert i == 1 && Chain(worlds, f, k)[1] == Hop(worlds(k), f).frame;
    OneForward(worlds(k), f);
  }

  lemma ChainUnfolds(worlds: nat -> World, f: InFlight, k: nat)
    requires AllAnswer(worlds)
    ensures Hop(worlds(k), f).Go? ==> Chain(worlds, f, k) == [f] + Chain(worlds, Hop(worlds(k), f).frame, k + 1)
    ensures !Hop(worlds(k), f).Go? ==> Chain(worlds, f, k) == [f]
  {
  }

  lemma ChainStarts(worlds: nat -> World, f: InFlight, k: nat)
    requires AllAnswer(worlds)
    ensures |Chain(worlds, f, k)| >= 1 && Chain(worlds, f, k)[0] == f
  {
  }

  /** The one hop that leaves a request a request. */
  lemma OneForward(o: World, f: InFlight)
    requires Answers(o) && Hop(o, f).Go? && Hop(o, f).frame.w.kind.Request?
    ensures f.AtHub? && f.w.kind.Request? && Hop(o, f).frame == AtDevice(Hop(o, f).frame.link, f.w)
    ensures Hop(o, f).frame.link != f.via && Hop(o, f).frame.link in o.online
  {
  }

  /** Two devices with links of their own in a world that does not change. */
  ghost predicate TwoDevices(o: World, a: string, la: Link, b: string, lb: Link) {
    && a != "" && b != "" && a != o.hubId && b != o.hubId && la != lb
    && a in o.bridgeOf && o.bridgeOf[a] == la && b in o.bridgeOf && o.bridgeOf[b] == lb
    && {la, lb} <= o.online && {la, lb} <= o.accepting
  }

  /** Handlers address the reply to the requester and keep its id. */
  ghost predicate RepliesToSender(o: World) {
    forall w: Wire :: w.kind.Request? ==> IsResponse(o.answer(w)) && o.answer(w).to == w.from && o.answer(w).id == w.id
  }

  lemma Unroll(o: World, f: InFlight, k: nat)
    requires Answers(o)
    ensures Hop(o, f).Go? ==> Chain(_ => o, f, k) == [f] + Chain(_ => o, Hop(o, f).frame, k + 1)
    ensures !Hop(o, f).Go? ==> Chain(_ => o, f, k) == [f]
  {
  }

  /** A request from one device to another: the requester gets an answer with its
      id exactly when the link the hub has for the target is really the target's;
      otherwise the error frame, addressed to the target, goes back to the wrong
      device. */
  lemma AnswerComesBackIff(o: World, a: string, la: Link, b: string, lb: Link, w: Wire)
    requires RepliesToSender(o) && TwoDevices(o, a, la, b, lb)
    requires w.kind.Request? && w.from == a && w.to == b && w.id !in o.hubPending
    ensures Answers(o)
    ensures var chain := Chain(_ => o, AtHub(la, w), 0); var last := chain[|chain| - 1];
      && |chain| == 4 && last.AtDevice? && IsResponse(last.w) && last.w.id == w.id
      && (last.link == la <==> o.selfId(lb) == b)
      && Hop(o, last) == Woken
  {
    var f1 := AtDevice(lb, w);
    assert Hop(o, AtHub(la, w)) == Go(f1);
    var reply := if o.selfId(lb) == b then o.answer(w) else w.(kind := Error);
    var f2 := AtHub(lb, reply);
    assert Hop(o, f1) == Go(f2);
    var f3 := AtDevice(if o.selfId(lb) == b then la else lb, reply);
    assert Hop(o, f2) == Go(f3);
    Unroll(o, AtHub(la, w), 0);
    Unroll(o, f1, 1);
    Unroll(o, f2, 2);
    Unroll(o, f3, 3);
  }

  /** A request the hub cannot hand on is answered over the link it came from. */
  lemma UnreachableIsAnswered(o: World, via: Link, w: Wire)
    requires Answers(o) && w.kind.Request? && w.to != "" && w.to != o.hubId
    requires ForwardTo(o, w.to, Some(via)) == None
    ensures Chain(_ => o, AtHub(via, w), 0) == [AtHub(via, w), AtDevice(via, w.(kind := Error))]
  {
    Unroll(o, AtHub(via, w), 0);
    Unroll(o, AtDevice(via, w.(kind := Error)), 1);
  }

  // ----- The device's view of who is reachable -----

  datatype Member = Member(nodeId: string, online: bool)

  /** The members a sync lists as online, other than this node; an entry without a
      node id is skipped. */
  function Listed(sync: seq<Option<Member>>, self: string): set<string> {
    set i | 0 <= i < |sync| && sync[i].Some? && sync[i].value.online
      && sync[i].value.nodeId != self :: sync[i].value.nodeId
  }

  /** Whether the session is up, and who can be reached over it. */
  datatype Reach = Reach(attached: bool, members: set<string>) {
    function Attach(): Reach { this.(attached := true) }
    function Detach(): Reach { Reach(false, {}) }
    function Sync(sync: Option<seq<Option<Member>>>, self: string): Reach {
      if sync.None? then this else this.(members := Listed(sync.value, self))
    }
    predicate Online(peer: string) { attached && peer in members }
  }

  class DeviceBridge {
    const selfNodeId: string
    const channel: BridgeRpcChannel
    var members: set<string>
    var attached: bool

    ghost function View(): Reach
      reads this
    {
      Reach(attached, members)
    }

    constructor (id: string)
      ensures selfNodeId == id && View() == Reach(false, {}) && fresh(channel) && channel.View() == Table(map[])
    {
      selfNodeId, members, attached := id, {}, false;
      channel := new BridgeRpcChannel();
    }

    method AttachUplink()
      modifies this`attached
      ensures View() == old(View()).Attach()
    {
      attached := true;
    }

    /** The session ends: nobody is reachable, and no request waits on. */
    method DetachUplink()
      modifies this, channel
      ensures View() == old(View()).Detach() && channel.View() == old(channel.View()).Cleared()
      ensures forall peer :: !View().Online(peer)
    {
      attached := false;
      channel.Clear();
      members := {};
    }

    /** Every sync replaces the table; one without a list of members changes
        nothing. */
    method HandleMemberSync(sync: Option<seq<Option<Member>>>)
      modifies this`members
      ensures View() == old(View()).Sync(sync, selfNodeId)
      ensures sync.Some? ==> forall id :: id in members <==> id != selfNodeId && Some(Member(id, true)) in sync.value
      ensures sync.None? ==> members == old(members)
    {
      if sync.None? {
        return;
      }
      var list, found: set<string> := sync.value, {};
      for i := 0 to |list|
        invariant found == Listed(list[..i], selfNodeId)
        invariant forall id :: id in found <==> id != selfNodeId && Some(Member(id, true)) in list[..i]
      {
        assert list[..i + 1] == list[..i] + [list[i]];
        if list[i].None? || !list[i].value.online || list[i].value.nodeId == selfNodeId {
          continue;
        }
        found := found + {list[i].value.nodeId};
      }
      assert list[..|list|] == list;
      members := found;
    }

    predicate BridgeOnline(peer: string)
      reads this
      ensures BridgeOnline(peer) <==> View().Online(peer)
    {
      attached && peer in members
    }
  }

  datatype Session = Attached | Detached | Synced(sync: Option<seq<Option<Member>>>)

  function Reached(self: string, es: seq<Session>): Reach {
    if es == [] then Reach(false, {})
    else
      var before := Reached(self, es[..|es| - 1]);
      match es[|es| - 1]
      case Attached => before.Attach()
      case Detached => before.Detach()
      case Synced(sync) => before.Sync(sync, self)
  }

  /** Nothing from `k` on ends the session. */
  predicate NoDetach(es: seq<Session>, k: nat) { forall i :: k <= i < |es| ==> !es[i].Detached? }

  /** The sync at `k` lists the peer, and none after it replaces the list. */
  predicate LastList(self: string, es: seq<Session>, k: nat, peer: string) {
    && k < |es| && es[k].Synced? && es[k].sync.Some? && peer in Listed(es[k].sync.value, self)
    && forall i :: k < i < |es| && es[i].Synced? ==> es[i].sync.None?
  }

  ghost predicate Listing(self: string, es: seq<Session>, peer: string) {
    exists k: nat :: LastList(self, es, k, peer) && NoDetach(es, k)
  }

  ghost predicate Attachment(es: seq<Session>) { exists k: nat :: k < |es| && es[k].Attached? && NoDetach(es, k) }

  lemma NoDetachStep(es: seq<Session>, k: nat)
    requires k < |es| - 1
    ensures NoDetach(es, k) <==> NoDetach(es[..|es| - 1], k) && !es[|es| - 1].Detached?
  {
    var last := |es| - 1;
    assert forall i :: k <= i < last ==> es[..last][i] == es[i];
  }

  lemma AttachmentStep(es: seq<Session>)
    requires es != []
    ensures var last := |es| - 1;
      Attachment(es) <==> es[last].Attached? || (Attachment(es[..last]) && !es[last].Detached?)
  {
    var last := |es| - 1;
    var before := es[..last];
    assert es[last].Attached? ==> NoDetach(es, last);
    assert es[last].Detached? ==> !NoDetach(es, last);
    forall k: nat | k < last ensures NoDetach(es, k) <==> NoDetach(before, k) && !es[last].Detached? {
      NoDetachStep(es, k);
    }
    hide NoDetach;
    if Attachment(before) && !es[last].Detached? {
      var k: nat :| k < last && before[k].Attached? && NoDetach(before, k);
      assert es[k].Attached? && NoDetach(es, k);
    }
    if k: nat :| k < |es| && es[k].Attached? && NoDetach(es, k) && k != last {
      assert before[k].Attached? && NoDetach(before, k);
    }
  }

  lemma LastListStep(self: string, es: seq<Session>, k: nat, peer: string)
    requires k < |es| - 1
    ensures var last := |es| - 1;
      LastList(self, es, k, peer) <==>
        LastList(self, es[..last], k, peer) && !(es[last].Synced? && es[last].sync.Some?)
  {
    var last := |es| - 1;
    hide Listed;
    assert forall i :: k <= i < last ==> es[..last][i] == es[i];
  }

  lemma ListingStep(self: string, es: seq<Session>, peer: string)
    requires es != []
    ensures var last := |es| - 1;
      Listing(self, es, peer) <==>
        if es[last].Synced? && es[last].sync.Some? then peer in Listed(es[last].sync.value, self)
        else Listing(self, es[..last], peer) && !es[last].Detached?
  {
    var last := |es| - 1;
    var before := es[..last];
    hide Listed;
    assert LastList(self, es, last, peer) <==>
      es[last].Synced? && es[last].sync.Some? && peer in Listed(es[last].sync.value, self);
    assert NoDetach(es, last) <==> !es[last].Detached?;
    forall k: nat | k < last
      ensures NoDetach(es, k) <==> NoDetach(before, k) && !es[last].Detached?
      ensures LastList(self, es, k, peer) <==>
        LastList(self, before, k, peer) && !(es[last].Synced? && es[last].sync.Some?)
    {
      NoDetachStep(es, k);
      LastListStep(self, es, k, peer);
    }
    assert forall k: nat :: LastList(self, es, k, peer) ==> k <= last;
    assert forall k: nat :: LastList(self, before, k, peer) ==> k < last;
    hide NoDetach, LastList;
    if k: nat :| LastList(self, before, k, peer) && NoDetach(before, k) {
      assert !es[last].Detached? && !(es[last].Synced? && es[last].sync.Some?) ==>
        LastList(self, es, k, peer) && NoDetach(es, k);
    }
    if k: nat :| LastList(self, es, k, peer) && NoDetach(es, k) {
      assert k < last ==> LastList(self, before, k, peer) && NoDetach(before, k);
    }
  }

  lemma {:induction false} MembersAre(self: string, es: seq<Session>, peer: string)
    ensures peer in Reached(self, es).members <==> Listing(self, es, peer)
    ensures Reached(self, es).attached <==> Attachment(es)
  {
    hide Listed, LastList, NoDetach;
    if es == [] {
      NobodyYet(self, peer);
    } else {
      MembersAre(self, es[..|es| - 1], peer);
      AttachmentStep(es);
      ListingStep(self, es, peer);
      hide Listing, Attachment;
    }
  }

  lemma NobodyYet(self: string, peer: string)
    ensures !Listing(self, [], peer) && !Attachment([])
  {
  }

  /** Over any sequence of sessions and syncs: a peer is reachable over the bridge
      exactly when a session is up and the last list of members, which is no older
      than the end of the session before, has the peer online. */
  lemma ReachableIff(self: string, es: seq<Session>, peer: string)
    ensures Reached(self, es).Online(peer) <==>
      && (exists j: nat :: j < |es| && es[j].Attached? && NoDetach(es, j))
      && (exists k: nat :: LastList(self, es, k, peer) && NoDetach(es, k))
  {
    MembersAre(self, es, peer);
    hide LastList, NoDetach, Reached;
  }
}
