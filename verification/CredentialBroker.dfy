/** The credential broker: a waiter with a timeout, a responder that writes the
    vault and may fail, and the emergency stop that closes every card, all
    meeting at one pending table under one lock. */
module CredentialBroker {
  import opened Wrappers

  datatype Outcome = Stored | Denied

  // ----- The pending table, one lock section at a time -----

  /** Cards waiting by request id, each standing for its waiter, and the waiters
      whose guard has not been dropped. */
  datatype Table = Table(pending: map<string, nat>, alive: set<nat>) {
    function Guard(w: nat): Table { this.(alive := alive + {w}) }
    function Insert(id: string, w: nat): Table { this.(pending := pending[id := w]) }
    function Without(id: string): Table { this.(pending := pending - {id}) }
    function PutBack(id: string, w: nat): Table { if w in alive then Insert(id, w) else this }
    function Leave(id: string, w: nat): Table { Table(pending - {id}, alive - {w}) }
    function Drained(): Table { this.(pending := map[]) }
  }

  class PendingMap {
    var pending: map<string, nat>
    var alive: set<nat>

    ghost function View(): Table
      reads this
    {
      Table(pending, alive)
    }

    constructor ()
      ensures View() == Table(map[], {})
    {
      pending, alive := map[], {};
    }

    /** A new waiter: first its guard, then its card. */
    method Enter(id: string, w: nat)
      modifies this
      ensures View() == old(View()).Guard(w).Insert(id, w)
    {
      alive := alive + {w};
      pending := pending[id := w];
    }

    /** Used by the responder and by the waiter's timeout: who takes the card out. */
    method Remove(id: string) returns (card: Option<nat>)
      modifies this`pending
      ensures View() == old(View()).Without(id)
      ensures card == if id in old(pending) then Some(old(pending)[id]) else None
    {
      card := if id in pending then Some(pending[id]) else None;
      pending := pending - {id};
    }

    /** After a failed vault write: back into the table only for a live waiter. */
    method PutBack(id: string, w: nat) returns (waiterAlive: bool)
      modifies this`pending
      ensures View() == old(View()).PutBack(id, w)
      ensures waiterAlive <==> w in alive
    {
      waiterAlive := w in alive;
      if waiterAlive {
        pending := pending[id := w];
      }
    }

    /** The guard's drop. */
    method DropGuard(id: string, w: nat)
      modifies this
      ensures View() == old(View()).Leave(id, w)
    {
      pending := pending - {id};
      alive := alive - {w};
    }

    /** The emergency stop takes all cards at once. */
    method Drain() returns (cards: set<nat>)
      modifies this`pending
      ensures View() == old(View()).Drained()
      ensures cards == old(pending).Values
    {
      cards := pending.Values;
      pending := map[];
    }
  }

  // ----- The protocol -----

  datatype Stage =
    | Ready                      // guard made, card not in the table yet
    | Waiting                    // in the first wait
    | Expired                    // the wait ended without a decision
    | Raced                      // somebody else holds the card: grace wait
    | Leaving(outcome: Outcome)  // decided, guard not dropped yet
    | Gone(returned: Option<Outcome>)

  /** `got` is everything ever sent to the waiter, `read` how much it has read. */
  datatype Waiter = Waiter(id: string, stage: Stage, got: seq<Outcome>, read: nat)

  datatype Responder = Took(w: nat) | Persisted(w: nat) | Failed(w: nat) | Finished

  datatype State = State(
    waiters: seq<Waiter>,
    table: Table,
    responders: map<nat, Responder>,
    closing: set<nat>,
    vault: set<nat>)

  datatype Event =
    | Begin(id: string)
    | Insert(w: nat)
    | Receive(w: nat)
    | Expire(w: nat)
    | TimeoutRemove(w: nat)
    | GraceOver(w: nat)
    | DropGuard(w: nat)
    | Abort(w: nat)
    | Take(r: nat, id: string)
    | PersistOk(r: nat)
    | PersistErr(r: nat)
    | SendStored(r: nat)
    | PutBack(r: nat)
    | CloseDrain
    | CloseSend(w: nat)

  function Init(): State { State([], Table(map[], {}), map[], {}, {}) }

  predicate At(s: State, w: nat, stage: Stage) { w < |s.waiters| && s.waiters[w].stage == stage }

  predicate Empty(s: State, w: nat)
    requires w < |s.waiters|
  {
    s.waiters[w].read >= |s.waiters[w].got|
  }

  predicate Enabled(s: State, e: Event) {
    match e
    case Begin(_) => true
    case Insert(w) => At(s, w, Ready)
    case Receive(w) => (At(s, w, Waiting) || At(s, w, Raced)) && !Empty(s, w)
    case Expire(w) => At(s, w, Waiting) && Empty(s, w)
    case TimeoutRemove(w) => At(s, w, Expired)
    case GraceOver(w) => At(s, w, Raced) && Empty(s, w)
    case DropGuard(w) => w < |s.waiters| && s.waiters[w].stage.Leaving?
    case Abort(w) => w < |s.waiters| && !s.waiters[w].stage.Gone?
    case Take(r, id) => r !in s.responders && id in s.table.pending
    case PersistOk(r) => r in s.responders && s.responders[r].Took?
    case PersistErr(r) => r in s.responders && s.responders[r].Took?
    case SendStored(r) => r in s.responders && s.responders[r].Persisted? && s.responders[r].w < |s.waiters|
    case PutBack(r) => r in s.responders && s.responders[r].Failed? && s.responders[r].w < |s.waiters|
    case CloseDrain => true
    case CloseSend(w) => w in s.closing && w < |s.waiters|
  }

  function To(s: State, w: nat, stage: Stage): State
    requires w < |s.waiters|
  {
    s.(waiters := s.waiters[w := s.waiters[w].(stage := stage)])
  }

  /** A send; it is lost when the receiving end is gone. */
  function Send(s: State, w: nat, o: Outcome): State
    requires w < |s.waiters|
  {
    if s.waiters[w].stage.Gone? then s
    else s.(waiters := s.waiters[w := s.waiters[w].(got := s.waiters[w].got + [o])])
  }

  function Apply(s: State, e: Event): State
    requires Enabled(s, e)
  {
    match e
    case Begin(id) => s.(waiters := s.waiters + [Waiter(id, Ready, [], 0)], table := s.table.Guard(|s.waiters|))
    case Insert(w) => To(s, w, Waiting).(table := s.table.Insert(s.waiters[w].id, w))
    case Receive(w) =>
      var x := s.waiters[w];
      s.(waiters := s.waiters[w := x.(stage := Leaving(x.got[x.read]), read := x.read + 1)])
    case Expire(w) => To(s, w, Expired)
    case TimeoutRemove(w) =>
      var id := s.waiters[w].id;
      To(s, w, if id in s.table.pending then Leaving(Denied) else Raced).(table := s.table.Without(id))
    case GraceOver(w) => To(s, w, Leaving(Denied))
    case DropGuard(w) =>
      To(s, w, Gone(Some(s.waiters[w].stage.outcome))).(table := s.table.Leave(s.waiters[w].id, w))
    case Abort(w) => To(s, w, Gone(None)).(table := s.table.Leave(s.waiters[w].id, w))
    case Take(r, id) => s.(table := s.table.Without(id), responders := s.responders[r := Took(s.table.pending[id])])
    case PersistOk(r) =>
      var w := s.responders[r].w;
      s.(vault := s.vault + {w}, responders := s.responders[r := Persisted(w)])
    case PersistErr(r) => s.(responders := s.responders[r := Failed(s.responders[r].w)])
    case SendStored(r) => Send(s, s.responders[r].w, Stored).(responders := s.responders[r := Finished])
    case PutBack(r) =>
      var w := s.responders[r].w;
      s.(table := s.table.PutBack(s.waiters[w].id, w), responders := s.responders[r := Finished])
    case CloseDrain => s.(table := s.table.Drained(), closing := s.closing + s.table.pending.Values)
    case CloseSend(w) => Send(s, w, Denied).(closing := s.closing - {w})
  }

  function Step(s: State, e: Event): State { if Enabled(s, e) then Apply(s, e) else s }

  function Run(es: seq<Event>): State {
    if es == [] then Init() else Step(Run(es[..|es| - 1]), es[|es| - 1])
  }

  // ----- Invariant -----

  /** Responder `r` has waiter `w`'s card in hand. */
  predicate Holds(s: State, r: nat, w: nat) {
    r in s.responders && !s.responders[r].Finished? && s.responders[r].w == w
  }

  predicate OnTable(s: State, w: nat)
    requires w < |s.waiters|
  {
    s.waiters[w].id in s.table.pending && s.table.pending[s.waiters[w].id] == w
  }

  /** A card in the table belongs to a live waiter that has entered it. */
  ghost predicate CardOk(s: State, id: string)
    requires id in s.table.pending
  {
    var w := s.table.pending[id];
    w < |s.waiters| && s.waiters[w].id == id && !s.waiters[w].stage.Ready? && !s.waiters[w].stage.Gone?
  }

  /** A card out of the table is in one hand only, and nothing has been sent for it. */
  ghost predicate HeldOk(s: State, r: nat)
    requires r in s.responders && !s.responders[r].Finished?
  {
    var w := s.responders[r].w;
    && w < |s.waiters| && !s.waiters[w].stage.Ready? && s.waiters[w].got == []
    && !OnTable(s, w) && w !in s.closing
    && (forall q :: Holds(s, q, w) ==> q == r)
    && (s.responders[r].Persisted? ==> w in s.vault)
  }

  ghost predicate ClosingOk(s: State, w: nat) {
    w < |s.waiters| && !s.waiters[w].stage.Ready? && s.waiters[w].got == [] && !OnTable(s, w)
  }

  ghost predicate WaiterOk(s: State, w: nat)
    requires w < |s.waiters|
  {
    var x := s.waiters[w];
    && (w in s.table.alive <==> !x.stage.Gone?)
    && |x.got| <= 1 && x.read <= |x.got|
    && (x.stage.Ready? || OnTable(s, w) ==> x.got == [])
    && (Stored in x.got ==> w in s.vault)
    && (x.stage == Leaving(Stored) || x.stage == Gone(Some(Stored)) ==> Stored in x.got)
  }

  ghost predicate Inv(s: State) {
    && (forall id :: id in s.table.pending ==> CardOk(s, id))
    && (forall r :: r in s.responders && !s.responders[r].Finished? ==> HeldOk(s, r))
    && (forall w :: w in s.closing ==> ClosingOk(s, w))
    && (forall w :: 0 <= w < |s.waiters| ==> WaiterOk(s, w))
    && (forall w :: w in s.table.alive ==> w < |s.waiters|)
  }

  /** The waiter an event is about, if any. */
  function About(s: State, e: Event): Option<nat> {
    match e
    case Begin(_) => None
    case Insert(w) => Some(w)
    case Receive(w) => Some(w)
    case Expire(w) => Some(w)
    case TimeoutRemove(w) => Some(w)
    case GraceOver(w) => Some(w)
    case DropGuard(w) => Some(w)
    case Abort(w) => Some(w)
    case Take(_, id) => if id in s.table.pending then Some(s.table.pending[id]) else None
    case PersistOk(r) => if r in s.responders && !s.responders[r].Finished? then Some(s.responders[r].w) else None
    case PersistErr(r) => if r in s.responders && !s.responders[r].Finished? then Some(s.responders[r].w) else None
    case SendStored(r) => if r in s.responders && !s.responders[r].Finished? then Some(s.responders[r].w) else None
    case PutBack(r) => if r in s.responders && !s.responders[r].Finished? then Some(s.responders[r].w) else None
    case CloseDrain => None
    case CloseSend(w) => Some(w)
  }

  /** The responder an event is about, if any. */
  function ByWhom(e: Event): Option<nat> {
    match e
    case Take(r, _) => Some(r)
    case PersistOk(r) => Some(r)
    case PersistErr(r) => Some(r)
    case SendStored(r) => Some(r)
    case PutBack(r) => Some(r)
    case _ => None
  }

  lemma AboutOk(s: State, e: Event)
    requires Inv(s) && Enabled(s, e)
    ensures About(s, e).Some? ==> About(s, e).value < |s.waiters| && WaiterOk(s, About(s, e).value)
    ensures ByWhom(e).Some? && !e.Take? ==>
      ByWhom(e).value in s.responders && !s.responders[ByWhom(e).value].Finished? && HeldOk(s, ByWhom(e).value)
    ensures e.Take? ==> CardOk(s, e.id)
    ensures e.CloseSend? ==> ClosingOk(s, e.w)
  {
    hide CardOk, HeldOk, ClosingOk, WaiterOk;
    if e.Take? {
      assert CardOk(s, e.id);
      CardIsThere(s, e.id);
    }
    if ByWhom(e).Some? && !e.Take? {
      assert HeldOk(s, ByWhom(e).value);
      HolderIsThere(s, ByWhom(e).value);
    }
  }

  lemma CardIsThere(s: State, id: string)
    requires id in s.table.pending && CardOk(s, id)
    ensures s.table.pending[id] < |s.waiters|
  {
  }

  lemma HolderIsThere(s: State, r: nat)
    requires r in s.responders && !s.responders[r].Finished? && HeldOk(s, r)
    ensures s.responders[r].w < |s.waiters|
  {
  }

  lemma StepCard(s: State, e: Event, id: string)
    requires Inv(s) && Enabled(s, e) && id in Apply(s, e).table.pending
    ensures CardOk(Apply(s, e), id)
  {
    AboutOk(s, e);
    assert id in s.table.pending ==> CardOk(s, id);
    hide Inv, ClosingOk;
  }

  lemma StepWaiter(s: State, e: Event, w: nat)
    requires Inv(s) && Enabled(s, e) && w < |Apply(s, e).waiters|
    ensures WaiterOk(Apply(s, e), w)
  {
    AboutOk(s, e);
    assert w < |s.waiters| ==> WaiterOk(s, w);
    if e.Begin? {
      BeginWaiter(s, e.id, w);
    }
    hide Inv, CardOk;
  }

  lemma BeginWaiter(s: State, id: string, w: nat)
    requires Inv(s) && w <= |s.waiters|
    ensures WaiterOk(Apply(s, Begin(id)), w)
  {
    assert |s.waiters| !in s.table.alive;
    assert id in s.table.pending ==> CardOk(s, id);
    assert w < |s.waiters| ==> WaiterOk(s, w);
    hide Inv;
  }

  lemma StepClosing(s: State, e: Event, w: nat)
    requires Inv(s) && Enabled(s, e) && w in Apply(s, e).closing
    ensures ClosingOk(Apply(s, e), w)
  {
    AboutOk(s, e);
    assert w in s.closing ==> ClosingOk(s, w);
    if e.CloseDrain? && w !in s.closing {
      var id :| id in s.table.pending && s.table.pending[id] == w;
      assert CardOk(s, id);
      assert WaiterOk(s, w);
    }
    hide Inv;
  }

  lemma StepHeld(s: State, e: Event, r: nat)
    requires Inv(s) && Enabled(s, e) && r in Apply(s, e).responders && !Apply(s, e).responders[r].Finished?
    ensures HeldOk(Apply(s, e), r)
  {
    AboutOk(s, e);
    assert r in s.responders && !s.responders[r].Finished? ==> HeldOk(s, r);
    if e.CloseDrain? {
      assert forall id :: id in s.table.pending ==> CardOk(s, id);
    }
    if e.Take? && e.r == r {
      TakenIsFree(s, e.id);
    }
    HeldOnce(s, e, r);
    assert r in s.responders && !s.responders[r].Finished? ==> Holds(s, r, s.responders[r].w);
    hide Inv;
  }

  lemma HeldOnce(s: State, e: Event, r: nat)
    requires Inv(s) && Enabled(s, e) && r in Apply(s, e).responders && !Apply(s, e).responders[r].Finished?
    ensures forall q :: Holds(Apply(s, e), q, Apply(s, e).responders[r].w) ==> q == r
  {
    var n := Apply(s, e);
    var w := n.responders[r].w;
    if e.Take? {
      TakenIsFree(s, e.id);
    }
    assert r in s.responders && !s.responders[r].Finished? ==> HeldOk(s, r);
    hide Inv, CardOk, ClosingOk, WaiterOk;
    forall q | Holds(n, q, w) ensures q == r {
      assert Holds(s, q, w) || (e.Take? && e.r == q);
      assert Holds(s, r, w) || (e.Take? && e.r == r);
    }
  }

  /** Nobody else has a card that is on the table. */
  lemma TakenIsFree(s: State, id: string)
    requires Inv(s) && id in s.table.pending
    ensures var w := s.table.pending[id];
      CardOk(s, id) && s.waiters[w].got == [] && w !in s.closing && forall q :: !Holds(s, q, w)
  {
    var w := s.table.pending[id];
    assert CardOk(s, id);
    assert WaiterOk(s, w) && (w in s.closing ==> ClosingOk(s, w));
    forall q ensures !Holds(s, q, w) {
      if q in s.responders && !s.responders[q].Finished? {
        assert HeldOk(s, q);
      }
    }
  }

  lemma StepKeepsInv(s: State, e: Event)
    requires Inv(s) && Enabled(s, e)
    ensures Inv(Apply(s, e))
  {
    hide CardOk, HeldOk, ClosingOk, WaiterOk;
    var n := Apply(s, e);
    AliveBounded(s, e);
    forall id | id in n.table.pending ensures CardOk(n, id) { StepCard(s, e, id); }
    forall r | r in n.responders && !n.responders[r].Finished? ensures HeldOk(n, r) { StepHeld(s, e, r); }
    forall w | w in n.closing ensures ClosingOk(n, w) { StepClosing(s, e, w); }
    forall w | 0 <= w < |n.waiters| ensures WaiterOk(n, w) { StepWaiter(s, e, w); }
    hide Apply, Enabled;
  }

  lemma AliveBounded(s: State, e: Event)
    requires Inv(s) && Enabled(s, e)
    ensures forall w :: w in Apply(s, e).table.alive ==> w < |Apply(s, e).waiters|
  {
    hide CardOk, HeldOk, ClosingOk, WaiterOk;
  }

  lemma {:induction false} RunKeepsInv(es: seq<Event>)
    ensures Inv(Run(es))
  {
    hide Apply, Enabled;
    if es != [] {
      RunKeepsInv(es[..|es| - 1]);
      if Enabled(Run(es[..|es| - 1]), es[|es| - 1]) {
        StepKeepsInv(Run(es[..|es| - 1]), es[|es| - 1]);
      }
    }
  }

  // ----- What holds over every run -----

  /** A card in the table always has a live waiter, the one it was made for. */
  lemma PendingCardsAreLive(es: seq<Event>, id: string)
    requires id in Run(es).table.pending
    ensures var s := Run(es); var w := s.table.pending[id];
      && w in s.table.alive && w < |s.waiters| && s.waiters[w].id == id && !s.waiters[w].stage.Gone?
  {
    RunKeepsInv(es);
    hide Run;
    assert CardOk(Run(es), id) && WaiterOk(Run(es), Run(es).table.pending[id]);
  }

  lemma RunSplits(es: seq<Event>, e: Event)
    ensures Run(es + [e]) == Step(Run(es), e)
  {
    assert (es + [e])[..|es|] == es;
  }

  /** A waiter that has left stays as it is. */
  lemma {:induction false} GoneForGood(es: seq<Event>, more: seq<Event>, w: nat)
    requires w < |Run(es).waiters| && Run(es).waiters[w].stage.Gone?
    ensures w < |Run(es + more).waiters|
    ensures Run(es + more).waiters[w].stage == Run(es).waiters[w].stage
    ensures forall id :: id in Run(es + more).table.pending ==> Run(es + more).table.pending[id] != w
    decreases |more|
  {
    hide Apply, Enabled;
    if more == [] {
      assert es + more == es;
    } else {
      var before, e := es + more[..|more| - 1], more[|more| - 1];
      GoneForGood(es, more[..|more| - 1], w);
      assert es + more == before + [e];
      RunSplits(before, e);
      if Enabled(Run(before), e) {
        GoneStep(Run(before), e, w);
      }
    }
    hide Run;
    forall id | id in Run(es + more).table.pending ensures Run(es + more).table.pending[id] != w {
      PendingCardsAreLive(es + more, id);
    }
  }

  lemma GoneStep(s: State, e: Event, w: nat)
    requires Enabled(s, e) && w < |s.waiters| && s.waiters[w].stage.Gone?
    ensures w < |Apply(s, e).waiters| && Apply(s, e).waiters[w].stage == s.waiters[w].stage
  {
  }

  /** In a run, each waiter is sent at most one decision. */
  lemma AtMostOneDecision(es: seq<Event>, w: nat)
    requires w < |Run(es).waiters|
    ensures |Run(es).waiters[w].got| <= 1
  {
    RunKeepsInv(es);
    hide Run;
    assert WaiterOk(Run(es), w);
  }

  /** A card in the vault got there by a responder's successful write. */
  lemma {:induction false} VaultHasWrite(es: seq<Event>, w: nat) returns (k: nat)
    requires w in Run(es).vault
    ensures k < |es| && es[k].PersistOk?
    ensures Holds(Run(es[..k]), es[k].r, w) && Run(es[..k]).responders[es[k].r].Took?
  {
    hide Apply, Enabled;
    var before, e := es[..|es| - 1], es[|es| - 1];
    if w in Run(before).vault {
      k := VaultHasWrite(before, w);
      assert before[..k] == es[..k];
    } else {
      k := |es| - 1;
      VaultStep(Run(before), e, w);
    }
  }

  lemma VaultStep(s: State, e: Event, w: nat)
    requires w in Step(s, e).vault && w !in s.vault
    ensures e.PersistOk? && Holds(s, e.r, w) && s.responders[e.r].Took?
  {
  }

  /** Stored is returned only after the vault write for that very card. */
  lemma StoredMeansWritten(es: seq<Event>, w: nat) returns (k: nat)
    requires w < |Run(es).waiters| && Run(es).waiters[w].stage == Gone(Some(Stored))
    ensures k < |es| && es[k].PersistOk? && Holds(Run(es[..k]), es[k].r, w)
    ensures w in Run(es).vault
  {
    RunKeepsInv(es);
    hide Run, Holds;
    assert WaiterOk(Run(es), w);
    k := VaultHasWrite(es, w);
  }

  // ----- What does not hold -----

  /** The wait and the grace wait end while a responder is writing. */
  function LateWrite(): seq<Event> {
    [Begin("c"), Insert(0), Take(0, "c"), Expire(0), TimeoutRemove(0), GraceOver(0), DropGuard(0), PersistOk(0)]
  }

  lemma LateWriteUnfolds()
    ensures Run(LateWrite()) ==
      Step(Step(Step(Step(Step(Step(Step(Step(Init(), Begin("c")), Insert(0)), Take(0, "c")), Expire(0)),
        TimeoutRemove(0)), GraceOver(0)), DropGuard(0)), PersistOk(0))
  {
    hide Step;
    var e := LateWrite();
    assert e[..0] == [] && e[..1] == e[..0] + [e[0]] && e[..2] == e[..1] + [e[1]] && e[..3] == e[..2] + [e[2]];
    assert e[..4] == e[..3] + [e[3]] && e[..5] == e[..4] + [e[4]] && e[..6] == e[..5] + [e[5]];
    assert e[..7] == e[..6] + [e[6]] && e == e[..7] + [e[7]];
    RunSplits(e[..0], e[0]);
    RunSplits(e[..1], e[1]);
    RunSplits(e[..2], e[2]);
    RunSplits(e[..3], e[3]);
    RunSplits(e[..4], e[4]);
    RunSplits(e[..5], e[5]);
    RunSplits(e[..6], e[6]);
    RunSplits(e[..7], e[7]);
  }

  const MIDWAY := State([Waiter("c", Waiting, [], 0)], Table(map[], {0}), map[0 := Took(0)], {}, {})
  const LOSING := State([Waiter("c", Raced, [], 0)], Table(map[], {0}), map[0 := Took(0)], {}, {})

  lemma FirstThree()
    ensures Step(Step(Step(Init(), Begin("c")), Insert(0)), Take(0, "c")) == MIDWAY
  {
    var s1 := Step(Init(), Begin("c"));
    assert s1 == State([Waiter("c", Ready, [], 0)], Table(map[], {0}), map[], {}, {});
    var s2 := Step(s1, Insert(0));
    assert s2 == State([Waiter("c", Waiting, [], 0)], Table(map["c" := 0], {0}), map[], {}, {});
  }

  lemma NextTwo()
    ensures Step(Step(MIDWAY, Expire(0)), TimeoutRemove(0)) == LOSING
  {
    assert Step(MIDWAY, Expire(0)) ==
      State([Waiter("c", Expired, [], 0)], Table(map[], {0}), map[0 := Took(0)], {}, {});
  }

  lemma LastThree()
    ensures var s := Step(Step(Step(LOSING, GraceOver(0)), DropGuard(0)), PersistOk(0));
      At(s, 0, Gone(Some(Denied))) && 0 in s.vault
  {
    var s1 := Step(LOSING, GraceOver(0));
    assert s1 == State([Waiter("c", Leaving(Denied), [], 0)], Table(map[], {0}), map[0 := Took(0)], {}, {});
  }

  /** The converse fails: a write that outlasts the grace wait is kept although the
      waiter has returned Denied. `CredentialOutcome` says exactly when. */
  lemma DeniedYetStored()
    ensures At(Run(LateWrite()), 0, Gone(Some(Denied))) && 0 in Run(LateWrite()).vault
  {
    LateWriteUnfolds();
    FirstThree();
    NextTwo();
    LastThree();
    hide *;
  }
}
