/** Turns of the ACP server: prompts of one session take turns under the
    session's lock, a pump forwards the driver's updates, and the answer of a
    prompt leaves only after its updates. Sessions share one outbound channel. */
module AcpTurns {
  import opened Wrappers

  /** How a driver ends a turn; a cancelled turn has no closing text. */
  datatype Outcome = Completed(text: string) | Failed(text: string) | Cancelled {
    function StopReason(): string {
      match this
      case Completed(_) => "end_turn"
      case Failed(_) => "refusal"
      case Cancelled => "cancelled"
    }

    function FinalText(): Option<string> {
      match this
      case Completed(m) => Some(m)
      case Failed(m) => Some(m)
      case Cancelled => None
    }
  }

  /** Frames on the outbound channel, labelled with the turn that sent them. */
  datatype Frame =
    | Update(session: nat, turn: nat, payload: string)
    | Final(session: nat, turn: nat, text: string)
    | Answer(session: nat, turn: nat, stopReason: string)

  /** A prompt handler between its lock sections and sends. */
  datatype Phase =
    | Queued            // waiting for the session's turn lock
    | Locked            // holds the lock, token not yet registered
    | Driving           // token registered, driver and pump at work
    | Draining          // driver returned; pump empties its buffer
    | Cleared           // pump done, token slot emptied
    | Closing           // closing text sent if there is one
    | Answered          // answer sent, lock still held
    | Done

  /** `forwarded` of the `produced` updates have left through the pump. */
  datatype Turn = Turn(session: nat, phase: Phase, produced: seq<string>, forwarded: nat, outcome: Outcome)

  datatype State = State(
    turns: seq<Turn>,
    lock: map<nat, nat>,          // session -> turn holding its lock
    slot: map<nat, nat>,          // session -> turn whose token is registered
    order: map<nat, seq<nat>>,    // session -> turns in the order they got the lock
    cancelled: set<nat>,          // turns whose token was triggered
    out: seq<Frame>)

  datatype Event =
    | Prompt(session: nat)
    | Acquire(n: nat)
    | RegisterToken(n: nat)
    | Produce(n: nat, payload: string)
    | Forward(n: nat)
    | DriverReturns(n: nat, outcome: Outcome)
    | ClearToken(n: nat)
    | SendFinal(n: nat)
    | SendAnswer(n: nat)
    | Release(n: nat)
    | Cancel(session: nat)

  function Init(): State { State([], map[], map[], map[], {}, []) }

  function Order(s: State, sid: nat): seq<nat> {
    if sid in s.order then s.order[sid] else []
  }

  predicate Is(s: State, n: nat, p: Phase) {
    n < |s.turns| && s.turns[n].phase == p
  }

  predicate Enabled(s: State, e: Event) {
    match e
    case Prompt(_) => true
    case Acquire(n) => Is(s, n, Queued) && s.turns[n].session !in s.lock
    case RegisterToken(n) => Is(s, n, Locked)
    case Produce(n, _) => Is(s, n, Driving)
    case Forward(n) => (Is(s, n, Driving) || Is(s, n, Draining)) && s.turns[n].forwarded < |s.turns[n].produced|
    case DriverReturns(n, _) => Is(s, n, Driving)
    case ClearToken(n) => Is(s, n, Draining) && s.turns[n].forwarded == |s.turns[n].produced|
    case SendFinal(n) => Is(s, n, Cleared)
    case SendAnswer(n) => Is(s, n, Closing)
    case Release(n) => Is(s, n, Answered)
    case Cancel(_) => true
  }

  function To(s: State, n: nat, t: Turn): State
    requires n < |s.turns|
  {
    s.(turns := s.turns[n := t])
  }

  function Apply(s: State, e: Event): State
    requires Enabled(s, e)
  {
    match e
    case Prompt(sid) => s.(turns := s.turns + [Turn(sid, Queued, [], 0, Cancelled)])
    case Acquire(n) =>
      var t := s.turns[n];
      To(s, n, t.(phase := Locked)).(lock := s.lock[t.session := n],
        order := s.order[t.session := Order(s, t.session) + [n]])
    case RegisterToken(n) =>
      var t := s.turns[n];
      To(s, n, t.(phase := Driving)).(slot := s.slot[t.session := n])
    case Produce(n, u) => To(s, n, s.turns[n].(produced := s.turns[n].produced + [u]))
    case Forward(n) =>
      var t := s.turns[n];
      To(s, n, t.(forwarded := t.forwarded + 1)).(out := s.out + [Update(t.session, n, t.produced[t.forwarded])])
    case DriverReturns(n, o) => To(s, n, s.turns[n].(phase := Draining, outcome := o))
    case ClearToken(n) =>
      var t := s.turns[n];
      To(s, n, t.(phase := Cleared)).(slot := s.slot - {t.session})
    case SendFinal(n) =>
      var t := s.turns[n];
      var next := To(s, n, t.(phase := Closing));
      if t.outcome.FinalText().None? then next
      else next.(out := s.out + [Final(t.session, n, t.outcome.FinalText().value)])
    case SendAnswer(n) =>
      var t := s.turns[n];
      To(s, n, t.(phase := Answered)).(out := s.out + [Answer(t.session, n, t.outcome.StopReason())])
    case Release(n) =>
      var t := s.turns[n];
      To(s, n, t.(phase := Done)).(lock := s.lock - {t.session})
    case Cancel(sid) =>
      if sid in s.slot then s.(slot := s.slot - {sid}, cancelled := s.cancelled + {s.slot[sid]}) else s
  }

  function Step(s: State, e: Event): State {
    if Enabled(s, e) then Apply(s, e) else s
  }

  function Run(es: seq<Event>): State {
    if es == [] then Init() else Step(Run(es[..|es| - 1]), es[|es| - 1])
  }

  // ----- The required shape of a session's stream -----

  function Updates(sid: nat, n: nat, us: seq<string>): (fs: seq<Frame>)
    ensures |fs| == |us|
    ensures forall i :: 0 <= i < |us| ==> fs[i] == Update(sid, n, us[i])
  {
    seq(|us|, i requires 0 <= i < |us| => Update(sid, n, us[i]))
  }

  function ClosingText(n: nat, t: Turn): seq<Frame> {
    if t.outcome.FinalText().None? then [] else [Final(t.session, n, t.outcome.FinalText().value)]
  }

  /** All frames of a turn: every update in the order produced, the closing
      text if the outcome has one, then the answer. */
  function WholeTurn(n: nat, t: Turn): seq<Frame> {
    Updates(t.session, n, t.produced) + ClosingText(n, t) + [Answer(t.session, n, t.outcome.StopReason())]
  }

  /** The frames a turn has sent so far. */
  function Sent(n: nat, t: Turn): seq<Frame> {
    match t.phase
    case Queued => []
    case Locked => []
    case Driving => if t.forwarded <= |t.produced| then Updates(t.session, n, t.produced[..t.forwarded]) else []
    case Draining => if t.forwarded <= |t.produced| then Updates(t.session, n, t.produced[..t.forwarded]) else []
    case Cleared => Updates(t.session, n, t.produced)
    case Closing => Updates(t.session, n, t.produced) + ClosingText(n, t)
    case Answered => WholeTurn(n, t)
    case Done => WholeTurn(n, t)
  }

  function Flat(turns: seq<Turn>, order: seq<nat>): seq<Frame> {
    if order == [] then []
    else
      var n := order[|order| - 1];
      Flat(turns, order[..|order| - 1]) + (if n < |turns| then Sent(n, turns[n]) else [])
  }

  function Only(fs: seq<Frame>, sid: nat): seq<Frame> {
    if fs == [] then []
    else Only(fs[..|fs| - 1], sid) + (if fs[|fs| - 1].session == sid then [fs[|fs| - 1]] else [])
  }

  lemma OnlySnoc(fs: seq<Frame>, f: Frame, sid: nat)
    ensures Only(fs + [f], sid) == Only(fs, sid) + if f.session == sid then [f] else []
  {
    assert (fs + [f])[..|fs|] == fs;
  }

  lemma FlatSnoc(turns: seq<Turn>, order: seq<nat>, n: nat)
    ensures Flat(turns, order + [n]) == Flat(turns, order) + if n < |turns| then Sent(n, turns[n]) else []
  {
    assert (order + [n])[..|order|] == order;
  }

  lemma {:induction false} FlatFrame(ts: seq<Turn>, us: seq<Turn>, order: seq<nat>)
    requires forall i :: 0 <= i < |order| ==>
      order[i] < |ts| && order[i] < |us| && Sent(order[i], ts[order[i]]) == Sent(order[i], us[order[i]])
    ensures Flat(ts, order) == Flat(us, order)
  {
    hide Sent;
    if order != [] {
      FlatFrame(ts, us, order[..|order| - 1]);
    }
  }

  // ----- Invariant -----

  predicate InFlight(p: Phase) { !p.Queued? && !p.Done? }

  ghost predicate TurnOk(s: State, n: nat)
    requires n < |s.turns|
  {
    var t := s.turns[n];
    && t.forwarded <= |t.produced|
    && (t.phase.Queued? || t.phase.Locked? ==> t.produced == [])
    && (InFlight(t.phase) <==> t.session in s.lock && s.lock[t.session] == n)
    && (t.phase.Queued? || t.phase.Locked? ==> n !in s.cancelled)
  }

  /** The turns of a session, in lock order: all done but possibly the last. */
  ghost predicate OrderOk(s: State, sid: nat) {
    var o := Order(s, sid);
    && (forall i :: 0 <= i < |o| ==> o[i] < |s.turns| && s.turns[o[i]].session == sid && !s.turns[o[i]].phase.Queued?)
    && (forall i :: 0 <= i < |o| - 1 ==> s.turns[o[i]].phase.Done?)
    && (forall i, j :: 0 <= i < j < |o| ==> o[i] != o[j])
    && (sid in s.lock <==> o != [] && !s.turns[o[|o| - 1]].phase.Done?)
    && (sid in s.lock ==> s.lock[sid] == o[|o| - 1])
  }

  ghost predicate SlotOk(s: State, sid: nat)
    requires sid in s.slot
  {
    s.slot[sid] < |s.turns| && s.turns[s.slot[sid]].session == sid
    && (s.turns[s.slot[sid]].phase.Driving? || s.turns[s.slot[sid]].phase.Draining?)
  }

  ghost predicate StreamOk(s: State, sid: nat) {
    Only(s.out, sid) == Flat(s.turns, Order(s, sid))
  }

  ghost predicate Inv(s: State) {
    && (forall n :: 0 <= n < |s.turns| ==> TurnOk(s, n))
    && (forall sid :: OrderOk(s, sid))
    && (forall sid :: sid in s.slot ==> SlotOk(s, sid))
    && (forall sid :: StreamOk(s, sid))
    && (forall n :: n in s.cancelled ==> n < |s.turns|)
  }

  // ----- Every step keeps it -----

  /** A turn in flight extends its session's stream by what it sends. */
  lemma TurnExtends(s: State, t: State, n: nat, add: seq<Frame>, sid: nat)
    requires Inv(s) && n < |s.turns| && InFlight(s.turns[n].phase)
    requires |t.turns| == |s.turns| && t.turns[n].session == s.turns[n].session
    requires forall m :: 0 <= m < |s.turns| && m != n ==> t.turns[m] == s.turns[m]
    requires t.order == s.order && t.out == s.out + add
    requires add == [] || (|add| == 1 && add[0].session == s.turns[n].session)
    requires Sent(n, t.turns[n]) == Sent(n, s.turns[n]) + add
    ensures StreamOk(t, sid)
  {
    PlaceInOrder(s, n, sid);
    assert StreamOk(s, sid);
    hide Sent, Only, Flat, Inv, InFlight;
    var o, mine := Order(s, sid), s.turns[n].session;
    hide Order;
    assert Order(t, sid) == o by { SameOrder(s, t, sid); }
    if add != [] {
      OnlySnoc(s.out, add[0], sid);
      assert add == [add[0]];
    } else {
      assert s.out + add == s.out;
    }
    if sid == mine {
      var before := o[..|o| - 1];
      assert o == before + [n];
      FlatFrame(s.turns, t.turns, before);
      FlatSnoc(s.turns, before, n);
      FlatSnoc(t.turns, before, n);
    } else {
      FlatFrame(s.turns, t.turns, o);
    }
  }

  lemma SameOrder(s: State, t: State, sid: nat)
    requires t.order == s.order
    ensures Order(t, sid) == Order(s, sid)
  {
  }

  lemma AcquireStream(s: State, n: nat, sid: nat)
    requires Inv(s) && Enabled(s, Acquire(n))
    ensures StreamOk(Apply(s, Acquire(n)), sid)
  {
    hide Only, Flat;
    var t, o := Apply(s, Acquire(n)), Order(s, sid);
    assert OrderOk(s, sid) && StreamOk(s, sid) && TurnOk(s, n);
    FlatFrame(s.turns, t.turns, o);
    if sid == s.turns[n].session {
      FlatSnoc(t.turns, o, n);
      assert Flat(t.turns, o) + [] == Flat(t.turns, o);
    }
  }

  lemma PromptStream(s: State, session: nat, sid: nat)
    requires Inv(s)
    ensures StreamOk(Apply(s, Prompt(session)), sid)
  {
    hide Only, Flat, Sent;
    assert OrderOk(s, sid) && StreamOk(s, sid);
    FlatFrame(s.turns, Apply(s, Prompt(session)).turns, Order(s, sid));
  }

  lemma TurnFacts(s: State, n: nat)
    requires Inv(s) && n < |s.turns|
    ensures s.turns[n].forwarded <= |s.turns[n].produced|
    ensures s.turns[n].phase.Queued? || s.turns[n].phase.Locked? ==> s.turns[n].produced == [] && n !in s.cancelled
  {
    assert TurnOk(s, n);
  }

  lemma UpdatesSnoc(sid: nat, n: nat, us: seq<string>, k: nat)
    requires k < |us|
    ensures Updates(sid, n, us[..k + 1]) == Updates(sid, n, us[..k]) + [Update(sid, n, us[k])]
  {
    assert us[..k + 1] == us[..k] + [us[k]];
  }

  /** The turn an event belongs to; none for an arriving prompt, the lock and a cancel. */
  function TurnOf(e: Event): Option<nat> {
    match e
    case Prompt(_) => None
    case Acquire(_) => None
    case Cancel(_) => None
    case RegisterToken(n) => Some(n)
    case Produce(n, _) => Some(n)
    case Forward(n) => Some(n)
    case DriverReturns(n, _) => Some(n)
    case ClearToken(n) => Some(n)
    case SendFinal(n) => Some(n)
    case SendAnswer(n) => Some(n)
    case Release(n) => Some(n)
  }

  function Says(s: State, e: Event): seq<Frame>
    requires Enabled(s, e)
  {
    match e
    case Forward(n) => [Update(s.turns[n].session, n, s.turns[n].produced[s.turns[n].forwarded])]
    case SendFinal(n) => ClosingText(n, s.turns[n])
    case SendAnswer(n) => [Answer(s.turns[n].session, n, s.turns[n].outcome.StopReason())]
    case _ => []
  }

  lemma Effects(s: State, e: Event, n: nat)
    requires Enabled(s, e) && TurnOf(e) == Some(n)
    ensures var t := Apply(s, e);
      && n < |s.turns| && InFlight(s.turns[n].phase)
      && |t.turns| == |s.turns| && t.turns[n].session == s.turns[n].session
      && (forall m :: 0 <= m < |s.turns| && m != n ==> t.turns[m] == s.turns[m])
      && t.order == s.order && t.out == s.out + Says(s, e)
      && (Says(s, e) == [] || (|Says(s, e)| == 1 && Says(s, e)[0].session == s.turns[n].session))
      && t.lock == (if t.turns[n].phase.Done? then s.lock - {s.turns[n].session} else s.lock)
      && t.cancelled == s.cancelled && !t.turns[n].phase.Queued? && !t.turns[n].phase.Locked?
      && (s.turns[n].forwarded <= |s.turns[n].produced| ==> t.turns[n].forwarded <= |t.turns[n].produced|)
  {
    assert s.out + [] == s.out;
  }

  lemma SentGrows(s: State, e: Event, n: nat)
    requires Enabled(s, e) && TurnOf(e) == Some(n)
    requires var t := s.turns[n]; t.forwarded <= |t.produced| && (t.phase.Locked? ==> t.produced == [])
    ensures Sent(n, Apply(s, e).turns[n]) == Sent(n, s.turns[n]) + Says(s, e)
  {
    var t := s.turns[n];
    match e
    case Produce(_, u) => assert (t.produced + [u])[..t.forwarded] == t.produced[..t.forwarded];
    case Forward(_) => UpdatesSnoc(t.session, n, t.produced, t.forwarded);
    case ClearToken(_) => assert t.produced[..t.forwarded] == t.produced;
    case _ =>
  }

  lemma TurnStream(s: State, e: Event, n: nat, sid: nat)
    requires Inv(s) && Enabled(s, e) && TurnOf(e) == Some(n)
    ensures StreamOk(Apply(s, e), sid)
  {
    Effects(s, e, n);
    TurnFacts(s, n);
    SentGrows(s, e, n);
    hide *;
    TurnExtends(s, Apply(s, e), n, Says(s, e), sid);
  }

  lemma StepStream(s: State, e: Event, sid: nat)
    requires Inv(s) && Enabled(s, e)
    ensures StreamOk(Apply(s, e), sid)
  {
    match e
    case Prompt(session) => PromptStream(s, session, sid);
    case Acquire(n) => AcquireStream(s, n, sid);
    case Cancel(c) => assert StreamOk(s, sid);
    case _ =>
      hide Inv, StreamOk;
      TurnStream(s, e, TurnOf(e).value, sid);
  }

  lemma TurnTurn(s: State, e: Event, k: nat, n: nat)
    requires Inv(s) && Enabled(s, e) && TurnOf(e) == Some(k) && n < |Apply(s, e).turns|
    ensures TurnOk(Apply(s, e), n)
  {
    Effects(s, e, k);
    assert TurnOk(s, n) && TurnOk(s, k);
    hide Inv, Apply, Enabled, Says;
  }

  lemma StepTurn(s: State, e: Event, n: nat)
    requires Inv(s) && Enabled(s, e) && n < |Apply(s, e).turns|
    ensures TurnOk(Apply(s, e), n)
  {
    hide StreamOk;
    match e
    case Prompt(sid) =>
      hide SlotOk;
      if n < |s.turns| {
        assert TurnOk(s, n);
      }
      assert OrderOk(s, sid);
    case Cancel(c) =>
      hide OrderOk;
      assert TurnOk(s, n);
      if c in s.slot {
        assert SlotOk(s, c);
      }
    case Acquire(k) =>
      hide OrderOk, SlotOk;
      assert TurnOk(s, n) && TurnOk(s, k);
    case _ =>
      hide Inv, TurnOk;
      TurnTurn(s, e, TurnOf(e).value, n);
  }

  lemma AcquireOrder(s: State, n: nat, sid: nat)
    requires Inv(s) && Enabled(s, Acquire(n))
    ensures OrderOk(Apply(s, Acquire(n)), sid)
  {
    assert OrderOk(s, sid) && TurnOk(s, n);
    AcquireEffects(s, n, sid);
    hide Inv, Apply, Order, Enabled, InFlight, TurnOk;
    if sid == s.turns[n].session {
      LastIsNew(s, Apply(s, Acquire(n)), n, sid);
    } else {
      OthersStay(s, Apply(s, Acquire(n)), n, sid);
    }
    hide OrderOk;
  }

  lemma LastIsNew(s: State, t: State, n: nat, sid: nat)
    requires n < |s.turns| && OrderOk(s, sid) && s.turns[n].session == sid && s.turns[n].phase.Queued? && sid !in s.lock
    requires t.turns == s.turns[n := s.turns[n].(phase := Locked)] && t.lock == s.lock[sid := n]
      && Order(t, sid) == Order(s, sid) + [n]
    ensures OrderOk(t, sid)
  {
    hide Order;
    var o := Order(s, sid);
    assert forall i :: 0 <= i < |o| ==> o[i] != n && s.turns[o[i]].phase.Done?;
    assert (o + [n])[|o|] == n;
  }

  lemma OthersStay(s: State, t: State, n: nat, sid: nat)
    requires n < |s.turns| && OrderOk(s, sid) && s.turns[n].session != sid
    requires t.turns == s.turns[n := s.turns[n].(phase := Locked)] && t.lock == s.lock[s.turns[n].session := n]
    requires Order(t, sid) == Order(s, sid)
    ensures OrderOk(t, sid)
  {
    hide Order;
    var o := Order(s, sid);
    assert forall i :: 0 <= i < |o| ==> o[i] != n;
  }

  lemma AcquireEffects(s: State, n: nat, sid: nat)
    requires Enabled(s, Acquire(n))
    ensures var t, mine := Apply(s, Acquire(n)), s.turns[n].session;
      && t.turns == s.turns[n := s.turns[n].(phase := Locked)]
      && t.lock == s.lock[mine := n]
      && Order(t, sid) == if sid == mine then Order(s, sid) + [n] else Order(s, sid)
  {
  }

  /** A turn in flight is the last of its session's order, and of no other. */
  lemma PlaceInOrder(s: State, n: nat, sid: nat)
    requires Inv(s) && n < |s.turns| && InFlight(s.turns[n].phase)
    ensures var o := Order(s, sid);
      && OrderOk(s, sid)
      && (sid == s.turns[n].session ==>
          sid in s.lock && s.lock[sid] == n && o != [] && o[|o| - 1] == n && n !in o[..|o| - 1])
      && (sid != s.turns[n].session ==> n !in o)
  {
    hide StreamOk, SlotOk;
    assert TurnOk(s, n) && OrderOk(s, sid);
  }

  lemma TurnOrder(s: State, t: State, n: nat, sid: nat)
    requires Inv(s) && n < |s.turns| && InFlight(s.turns[n].phase)
    requires |t.turns| == |s.turns| && t.turns[n].session == s.turns[n].session
    requires forall m :: 0 <= m < |s.turns| && m != n ==> t.turns[m] == s.turns[m]
    requires t.order == s.order && !t.turns[n].phase.Queued?
    requires t.lock == if t.turns[n].phase.Done? then s.lock - {s.turns[n].session} else s.lock
    ensures OrderOk(t, sid)
  {
    PlaceInOrder(s, n, sid);
    hide Inv, InFlight;
    var o := Order(s, sid);
    assert Order(t, sid) == o;
    hide Order;
    forall i | 0 <= i < |o| - 1 ensures t.turns[o[i]].phase.Done? {
      assert o[i] == o[..|o| - 1][i];
    }
  }

  lemma AwayOrder(s: State, e: Event, sid: nat)
    requires Inv(s) && Enabled(s, e) && (e.Prompt? || e.Cancel?)
    ensures OrderOk(Apply(s, e), sid)
  {
    assert OrderOk(s, sid);
    hide Inv;
  }

  lemma StepOrder(s: State, e: Event, sid: nat)
    requires Inv(s) && Enabled(s, e)
    ensures OrderOk(Apply(s, e), sid)
  {
    hide StreamOk, SlotOk, TurnOk;
    match e
    case Prompt(_) => AwayOrder(s, e, sid); hide *;
    case Acquire(n) => AcquireOrder(s, n, sid); hide *;
    case Cancel(_) => AwayOrder(s, e, sid); hide *;
    case _ =>
      hide Inv, OrderOk, Order, InFlight;
      Effects(s, e, TurnOf(e).value);
      hide Apply, Enabled, Says;
      TurnOrder(s, Apply(s, e), TurnOf(e).value, sid);
  }

  lemma StepSlot(s: State, e: Event, sid: nat)
    requires Inv(s) && Enabled(s, e) && sid in Apply(s, e).slot
    ensures SlotOk(Apply(s, e), sid)
  {
    hide StreamOk, OrderOk, Sent, Only, Flat;
    if sid in s.slot {
      assert SlotOk(s, sid) && TurnOk(s, s.slot[sid]);
    }
    match e
    case ClearToken(n) => assert TurnOk(s, n);
    case _ =>
  }

  lemma StepKeepsInv(s: State, e: Event)
    requires Inv(s)
    ensures Inv(Step(s, e))
  {
    if Enabled(s, e) {
      forall n | 0 <= n < |Step(s, e).turns| ensures TurnOk(Step(s, e), n) {
        StepTurn(s, e, n);
      }
      forall sid ensures OrderOk(Step(s, e), sid) && StreamOk(Step(s, e), sid) {
        StepOrder(s, e, sid);
        StepStream(s, e, sid);
      }
      forall sid | sid in Step(s, e).slot ensures SlotOk(Step(s, e), sid) {
        StepSlot(s, e, sid);
      }
      if e.Cancel? && e.session in s.slot {
        assert SlotOk(s, e.session);
      }
      hide TurnOk, OrderOk, StreamOk, SlotOk;
    }
  }

  lemma {:induction false} RunKeepsInv(es: seq<Event>)
    ensures Inv(Run(es))
  {
    if es == [] {
      assert forall sid :: Order(Init(), sid) == [];
    } else {
      RunKeepsInv(es[..|es| - 1]);
      StepKeepsInv(Run(es[..|es| - 1]), es[|es| - 1]);
    }
  }

  // ----- What every run guarantees -----

  /** A session's outbound frames are whole turns one after another, in the
      order the turns got the lock, followed by what the turn in flight has
      sent so far; a whole turn is its updates, its closing text, its answer. */
  lemma SessionStreamIsTurns(es: seq<Event>, sid: nat)
    ensures StreamOfTurns(Run(es), sid)
  {
    RunKeepsInv(es);
    hide Run, Only, Flat, WholeTurn;
    var s := Run(es);
    assert OrderOk(s, sid) && StreamOk(s, sid);
    var o := Order(s, sid);
    if o != [] {
      TurnFacts(s, o[|o| - 1]);
      SentIsPrefix(o[|o| - 1], s.turns[o[|o| - 1]]);
    }
  }

  ghost predicate StreamOfTurns(s: State, sid: nat) {
    var o := Order(s, sid);
    && Only(s.out, sid) == Flat(s.turns, o)
    && (forall i :: 0 <= i < |o| ==> o[i] < |s.turns| && s.turns[o[i]].session == sid)
    && (forall i :: 0 <= i < |o| - 1 ==> Sent(o[i], s.turns[o[i]]) == WholeTurn(o[i], s.turns[o[i]]))
    && (o != [] ==> Sent(o[|o| - 1], s.turns[o[|o| - 1]]) <= WholeTurn(o[|o| - 1], s.turns[o[|o| - 1]]))
  }

  lemma SentIsPrefix(n: nat, t: Turn)
    requires t.forwarded <= |t.produced|
    ensures Sent(n, t) <= WholeTurn(n, t)
  {
    var all := Updates(t.session, n, t.produced);
    assert Updates(t.session, n, t.produced[..t.forwarded]) == all[..t.forwarded];
  }

  /** No two turns of a session are in flight together. */
  lemma OneTurnAtATime(es: seq<Event>, m: nat, n: nat)
    requires var s := Run(es); m < |s.turns| && n < |s.turns| && m != n && s.turns[m].session == s.turns[n].session
    ensures var s := Run(es); !(InFlight(s.turns[m].phase) && InFlight(s.turns[n].phase))
  {
    RunKeepsInv(es);
    assert TurnOk(Run(es), m) && TurnOk(Run(es), n);
  }

  /** A cancel of the session that found turn n holding the lock with its token registered. */
  ghost predicate CancelledInFlight(es: seq<Event>, k: nat, n: nat) {
    && k < |es| && es[k].Cancel?
    && var s := Run(es[..k]);
      && n < |s.turns| && s.turns[n].session == es[k].session
      && (s.turns[n].phase.Driving? || s.turns[n].phase.Draining?)
      && es[k].session in s.lock && s.lock[es[k].session] == n
  }

  lemma NewlyCancelled(s: State, e: Event, n: nat)
    requires Inv(s) && n in Step(s, e).cancelled && n !in s.cancelled
    ensures e.Cancel? && n < |s.turns| && s.turns[n].session == e.session
    ensures s.turns[n].phase.Driving? || s.turns[n].phase.Draining?
    ensures e.session in s.lock && s.lock[e.session] == n
  {
    assert e.Cancel? && SlotOk(s, e.session) && TurnOk(s, n);
    hide Inv;
  }

  /** A token is only ever triggered by a cancel that met its turn in flight;
      a queued prompt is out of reach. */
  lemma {:induction false} CancelHitsTurnInFlight(es: seq<Event>, n: nat) returns (k: nat)
    requires n in Run(es).cancelled
    ensures CancelledInFlight(es, k, n)
  {
    hide Step, Inv;
    var past, e := es[..|es| - 1], es[|es| - 1];
    if n in Run(past).cancelled {
      k := CancelHitsTurnInFlight(past, n);
      assert past[..k] == es[..k];
    } else {
      k := |es| - 1;
      RunKeepsInv(past);
      NewlyCancelled(Run(past), e, n);
    }
  }

  lemma QueuedTurnsAreNotCancelled(es: seq<Event>, n: nat)
    requires Is(Run(es), n, Queued)
    ensures n !in Run(es).cancelled
  {
    RunKeepsInv(es);
    TurnFacts(Run(es), n);
  }

  /** A turn at work can be reached: its token is registered, or has been triggered. */
  ghost predicate Reachable(s: State) {
    forall n :: 0 <= n < |s.turns| && (s.turns[n].phase.Driving? || s.turns[n].phase.Draining?) ==>
      n in s.cancelled || (s.turns[n].session in s.slot && s.slot[s.turns[n].session] == n)
  }

  lemma StepReachable(s: State, e: Event)
    requires Inv(s) && Reachable(s) && Enabled(s, e)
    ensures Reachable(Apply(s, e))
  {
    hide OrderOk, StreamOk;
    var t := Apply(s, e);
    forall n | 0 <= n < |t.turns| && (t.turns[n].phase.Driving? || t.turns[n].phase.Draining?)
      ensures n in t.cancelled || (t.turns[n].session in t.slot && t.slot[t.turns[n].session] == n)
    {
      assert TurnOk(s, n);
      if TurnOf(e).Some? {
        assert TurnOk(s, TurnOf(e).value);
      }
      if e.Cancel? && e.session in s.slot {
        assert SlotOk(s, e.session);
      }
    }
  }

  lemma {:induction false} RunReachable(es: seq<Event>)
    ensures Reachable(Run(es))
  {
    hide Apply, Enabled, Inv;
    if es != [] {
      RunReachable(es[..|es| - 1]);
      RunKeepsInv(es[..|es| - 1]);
      hide Reachable;
      if Enabled(Run(es[..|es| - 1]), es[|es| - 1]) {
        StepReachable(Run(es[..|es| - 1]), es[|es| - 1]);
      }
    }
  }

  lemma CancelReaches(s: State, e: Event, n: nat)
    requires Inv(s) && Reachable(s) && e.Cancel? && n < |s.turns| && s.turns[n].session == e.session
    requires s.turns[n].phase.Driving? || s.turns[n].phase.Draining?
    ensures n in Apply(s, e).cancelled
  {
    hide Inv;
  }

  lemma CancelledStays(s: State, e: Event, n: nat)
    requires n in s.cancelled
    ensures n in Step(s, e).cancelled
  {
  }

  /** A turn's token is triggered exactly when a cancel of its session comes while the
      driver is at work on it or its updates are being forwarded. */
  lemma {:induction false} CancelledIff(es: seq<Event>, n: nat)
    ensures n in Run(es).cancelled <==> exists k: nat :: CancelledInFlight(es, k, n)
  {
    if n in Run(es).cancelled {
      var k := CancelHitsTurnInFlight(es, n);
    }
    if k: nat :| CancelledInFlight(es, k, n) {
      CancelTriggers(es, k, n);
    }
    hide *;
  }

  lemma {:induction false} CancelTriggers(es: seq<Event>, k: nat, n: nat)
    requires CancelledInFlight(es, k, n)
    ensures n in Run(es).cancelled
  {
    hide Inv, Reachable;
    var last := |es| - 1;
    if k == last {
      RunKeepsInv(es[..k]);
      RunReachable(es[..k]);
      CancelReaches(Run(es[..k]), es[k], n);
    } else {
      assert es[..last][..k] == es[..k];
      CancelTriggers(es[..last], k, n);
      CancelledStays(Run(es[..last]), es[last], n);
    }
  }

  // ----- What the frames of a turn say -----

  /** The closing text and the stop reason that the outcome of a driver calls for. */
  function EndFor(sid: nat, n: nat, o: Outcome): seq<Frame> {
    match o
    case Completed(text) => [Final(sid, n, text), Answer(sid, n, "end_turn")]
    case Failed(text) => [Final(sid, n, text), Answer(sid, n, "refusal")]
    case Cancelled => [Answer(sid, n, "cancelled")]
  }

  predicate BehindDriver(p: Phase) { p.Draining? || p.Cleared? || p.Closing? || p.Answered? || p.Done? }

  lemma OutcomeStays(s: State, e: Event, n: nat)
    requires Enabled(s, e) && n < |s.turns| && BehindDriver(s.turns[n].phase)
    ensures var t := Apply(s, e);
      && n < |t.turns| && BehindDriver(t.turns[n].phase)
      && t.turns[n].outcome == s.turns[n].outcome && t.turns[n].produced == s.turns[n].produced
      && t.turns[n].session == s.turns[n].session
  {
  }

  /** Once its driver has returned, a turn's frames are its updates as they were
      produced, followed by what the driver's outcome calls for, and that is what the
      session's stream has when the turn is answered. */
  lemma {:induction false} TurnSaysItsOutcome(es: seq<Event>, n: nat, o: Outcome, more: seq<Event>)
    requires Enabled(Run(es), DriverReturns(n, o))
    ensures var t := Run(es + [DriverReturns(n, o)] + more);
      var sid, us := Run(es).turns[n].session, Run(es).turns[n].produced;
      && n < |t.turns| && BehindDriver(t.turns[n].phase)
      && WholeTurn(n, t.turns[n]) == Updates(sid, n, us) + EndFor(sid, n, o)
      && (t.turns[n].phase.Answered? || t.turns[n].phase.Done? ==>
          Sent(n, t.turns[n]) == Updates(sid, n, us) + EndFor(sid, n, o))
    decreases |more|
  {
    hide Apply, Enabled;
    DriverKept(es, n, o, more);
    var t := Run(es + [DriverReturns(n, o)] + more).turns[n];
    var all := Updates(t.session, n, t.produced);
    hide Run;
    assert ClosingText(n, t) + [Answer(t.session, n, t.outcome.StopReason())] == EndFor(t.session, n, o);
    assert WholeTurn(n, t) == all + (ClosingText(n, t) + [Answer(t.session, n, t.outcome.StopReason())]);
  }

  lemma {:induction false} DriverKept(es: seq<Event>, n: nat, o: Outcome, more: seq<Event>)
    requires Enabled(Run(es), DriverReturns(n, o))
    ensures n < |Run(es).turns| && n < |Run(es + [DriverReturns(n, o)] + more).turns|
    ensures var t, was := Run(es + [DriverReturns(n, o)] + more).turns[n], Run(es).turns[n];
      BehindDriver(t.phase) && t.outcome == o && t.session == was.session && t.produced == was.produced
    decreases |more|
  {
    var e := DriverReturns(n, o);
    if more == [] {
      assert es + [e] + more == es + [e] && (es + [e])[..|es|] == es;
      assert Run(es + [e]) == Apply(Run(es), e);
    } else {
      var front, f := es + [e] + more[..|more| - 1], more[|more| - 1];
      DriverKept(es, n, o, more[..|more| - 1]);
      assert es + [e] + more == front + [f] && (front + [f])[..|front|] == front;
      hide Apply, Enabled;
      if Enabled(Run(front), f) {
        OutcomeStays(Run(front), f, n);
      }
    }
  }
}
