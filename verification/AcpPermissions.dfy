/** The permission gate of the ACP server: every session of the process shares
    one table of requests in flight, client frames are routed by id, and a
    request ends by a verdict, a timeout or a dead client. */
module AcpPermissions {
  import opened Wrappers

  datatype Outcome = Allowed | Denied

  // ----- Request ids -----

  function Digit(d: nat): char
    requires d < 10
  {
    '0' + d as char
  }

  function Decimal(n: nat): string {
    if n < 10 then [Digit(n)] else Decimal(n / 10) + [Digit(n % 10)]
  }

  function RpcId(n: nat): string { "perm-" + Decimal(n) }

  lemma OneDigit(n: nat)
    ensures |Decimal(n)| >= 1 && (|Decimal(n)| == 1 <==> n < 10)
  {
  }

  lemma {:induction false} DecimalInjective(m: nat, n: nat)
    requires Decimal(m) == Decimal(n)
    ensures m == n
    decreases m
  {
    OneDigit(m);
    OneDigit(n);
    var a, b := Decimal(m), Decimal(n);
    assert a[|a| - 1] == Digit(m % 10) && b[|b| - 1] == Digit(n % 10);
    if m >= 10 {
      assert a[..|a| - 1] == Decimal(m / 10) && b[..|b| - 1] == Decimal(n / 10);
      DecimalInjective(m / 10, n / 10);
    }
  }

  lemma RpcIdInjective(m: nat, n: nat)
    requires RpcId(m) == RpcId(n)
    ensures m == n
  {
    assert RpcId(m)[5..] == Decimal(m) && RpcId(n)[5..] == Decimal(n);
    DecimalInjective(m, n);
  }

  // ----- The client's answer -----

  /** The `outcome` object of a result: its kind and the option picked. */
  datatype Answer = Answer(kind: Option<string>, optionId: Option<string>)

  function ParseOutcome(a: Answer): Option<Outcome> {
    match a.kind
    case Some("cancelled") => Some(Denied)
    case Some("selected") =>
      (match a.optionId
       case Some("allow_once") => Some(Allowed)
       case Some("allow_always") => Some(Allowed)
       case Some("reject_once") => Some(Denied)
       case Some("reject_always") => Some(Denied)
       case _ => None)
    case _ => None
  }

  /** An error response, a lost result or an unreadable one is a denial. */
  function Verdict(result: Option<Answer>): Outcome {
    match result
    case None => Denied
    case Some(a) => if ParseOutcome(a).Some? then ParseOutcome(a).value else Denied
  }

  predicate PicksAllow(result: Option<Answer>) {
    result.Some? && result.value.kind == Some("selected")
    && (result.value.optionId == Some("allow_once") || result.value.optionId == Some("allow_always"))
  }

  /** Nothing but a selected allow option opens the gate. */
  lemma AllowedOnlyByOption(result: Option<Answer>)
    ensures Verdict(result) == Allowed <==> PicksAllow(result)
  {
  }

  // ----- The shared table, one lock section at a time -----

  /** Requests in flight by id, and the next number to mint; a waiter is named
      by the number of its request. */
  datatype Table = Table(inner: map<string, nat>, nextId: nat) {
    function Mint(): (string, Table) { (RpcId(nextId), this.(nextId := nextId + 1)) }

    function Register(rpcId: string, waiter: nat): Table {
      this.(inner := inner[rpcId := waiter])
    }

    /** The waiter a frame wakes, if one is registered under the id. */
    function Woken(rpcId: string): Option<nat> {
      if rpcId in inner then Some(inner[rpcId]) else None
    }

    function Without(rpcId: string): Table { this.(inner := inner - {rpcId}) }
  }

  class PendingPermissions {
    var inner: map<string, nat>
    var nextId: nat

    ghost function View(): Table
      reads this
    {
      Table(inner, nextId)
    }

    constructor ()
      ensures View() == Table(map[], 0)
    {
      inner, nextId := map[], 0;
    }

    method MintId() returns (id: string)
      modifies this`nextId
      ensures (id, View()) == old(View()).Mint()
    {
      id := RpcId(nextId);
      nextId := nextId + 1;
    }

    method Register(rpcId: string, waiter: nat)
      modifies this`inner
      ensures View() == old(View()).Register(rpcId, waiter)
    {
      inner := inner[rpcId := waiter];
    }

    /** Takes the entry out and hands the verdict to its waiter; a late or
        unknown id changes nothing. */
    method Resolve(rpcId: string, result: Option<Answer>) returns (woken: Option<(nat, Outcome)>)
      modifies this`inner
      ensures View() == old(View()).Without(rpcId)
      ensures woken == if old(View()).Woken(rpcId).None? then None
                       else Some((old(View()).Woken(rpcId).value, Verdict(result)))
    {
      var outcome := Denied;
      if result.Some? {
        var parsed := ParseOutcome(result.value);
        if parsed.Some? {
          outcome := parsed.value;
        }
      }
      if rpcId in inner {
        woken := Some((inner[rpcId], outcome));
        inner := inner - {rpcId};
      } else {
        assert inner - {rpcId} == inner;
        woken := None;
      }
    }
  }

  // ----- All sessions, all requests, every interleaving -----

  /** Where a request is. `Abandoning` has given up (the frame could not be sent,
      or the wait ran out) and is about to take its own entry out. */
  datatype Phase = Minted | Registered | Waiting | Abandoning | Finished(outcome: Outcome)

  /** The one-shot channel of a request: a verdict in it, or its sender gone. */
  datatype Slot = Empty | Got(outcome: Outcome) | Dropped

  datatype Request = Request(id: string, phase: Phase, slot: Slot)

  /** `requests[n]` is the request that minted number n. */
  datatype State = State(table: Table, requests: seq<Request>)

  datatype Event =
    | Mint
    | Register(n: nat)
    | SendOk(n: nat)
    | SendFailed(n: nat)
    | Frame(id: string, result: Option<Answer>)
    | Receive(n: nat)
    | TimedOut(n: nat)
    | Withdraw(n: nat)

  function Init(): State { State(Table(map[], 0), []) }

  /** A verdict reaches a waiter only while it still listens. */
  function Deliver(rs: seq<Request>, n: nat, o: Outcome): (rs': seq<Request>)
    ensures |rs'| == |rs|
  {
    if n < |rs| && (rs[n].phase.Registered? || rs[n].phase.Waiting?) then rs[n := rs[n].(slot := Got(o))] else rs
  }

  function Resolved(s: State, id: string, o: Outcome): State {
    if s.table.Woken(id).None? then s
    else State(s.table.Without(id), Deliver(s.requests, s.table.Woken(id).value, o))
  }

  predicate Enabled(s: State, e: Event) {
    match e
    case Mint => true
    case Frame(_, _) => true
    case Register(n) => n < |s.requests| && s.requests[n].phase.Minted?
    case SendOk(n) => n < |s.requests| && s.requests[n].phase.Registered?
    case SendFailed(n) => n < |s.requests| && s.requests[n].phase.Registered?
    case Receive(n) => n < |s.requests| && s.requests[n].phase.Waiting? && s.requests[n].slot.Got?
    case TimedOut(n) => n < |s.requests| && s.requests[n].phase.Waiting? && !s.requests[n].slot.Got?
    case Withdraw(n) => n < |s.requests| && s.requests[n].phase.Abandoning?
  }

  function WithPhase(s: State, n: nat, p: Phase): State
    requires n < |s.requests|
  {
    s.(requests := s.requests[n := s.requests[n].(phase := p)])
  }

  function Apply(s: State, e: Event): State
    requires Enabled(s, e)
  {
    match e
    case Mint =>
      var (id, table) := s.table.Mint();
      State(table, s.requests + [Request(id, Minted, Empty)])
    case Register(n) =>
      var id := s.requests[n].id;
      // an entry under the same id would lose its sender
      var displaced := match s.table.Woken(id)
        case Some(m) => if m < |s.requests| then s.requests[m := s.requests[m].(slot := Dropped)] else s.requests
        case None => s.requests;
      WithPhase(State(s.table.Register(id, n), displaced), n, Registered)
    case SendOk(n) => WithPhase(s, n, Waiting)
    case SendFailed(n) => WithPhase(s, n, Abandoning)
    case Frame(id, result) => Resolved(s, id, Verdict(result))
    case Receive(n) => WithPhase(s, n, Finished(s.requests[n].slot.outcome))
    case TimedOut(n) => WithPhase(s, n, Abandoning)
    case Withdraw(n) => WithPhase(Resolved(s, s.requests[n].id, Denied), n, Finished(Denied))
  }

  /** An event whose guard fails does not happen. */
  function Step(s: State, e: Event): State {
    if Enabled(s, e) then Apply(s, e) else s
  }

  function Run(es: seq<Event>): State {
    if es == [] then Init() else Step(Run(es[..|es| - 1]), es[|es| - 1])
  }

  /** The table holds exactly the requests that are registered, not yet
      answered and not yet finished. */
  ghost predicate Inv(s: State) {
    && s.table.nextId == |s.requests|
    && (forall n :: 0 <= n < |s.requests| ==> s.requests[n].id == RpcId(n))
    && (forall id :: id in s.table.inner ==> s.table.inner[id] < |s.requests| && id == RpcId(s.table.inner[id]))
    && (forall n :: 0 <= n < |s.requests| ==> Settled(s, n))
  }

  ghost predicate Settled(s: State, n: nat)
    requires n < |s.requests|
  {
    var r := s.requests[n];
    && !r.slot.Dropped?
    && (r.phase.Minted? ==> r.slot.Empty? && RpcId(n) !in s.table.inner)
    && (r.phase.Registered? || r.phase.Waiting? ==> (r.slot.Empty? <==> RpcId(n) in s.table.inner))
    && (r.phase.Finished? ==> RpcId(n) !in s.table.inner)
  }

  lemma IdsDiffer()
    ensures forall m: nat, n: nat :: RpcId(m) == RpcId(n) ==> m == n
  {
    forall m: nat, n: nat | RpcId(m) == RpcId(n) ensures m == n {
      RpcIdInjective(m, n);
    }
  }

  lemma ResolvedKeepsInv(s: State, id: string, o: Outcome)
    requires Inv(s)
    ensures Inv(Resolved(s, id, o)) && id !in Resolved(s, id, o).table.inner
    ensures |Resolved(s, id, o).requests| == |s.requests|
    ensures forall n :: 0 <= n < |s.requests| ==> Resolved(s, id, o).requests[n].phase == s.requests[n].phase
  {
    IdsDiffer();
    hide RpcId;
    var t := Resolved(s, id, o);
    forall n | 0 <= n < |t.requests| ensures Settled(t, n) {
      assert Settled(s, n);
    }
  }

  lemma PhaseKeepsInv(s: State, n: nat, p: Phase)
    requires Inv(s) && n < |s.requests|
    requires Settled(WithPhase(s, n, p), n)
    ensures Inv(WithPhase(s, n, p))
  {
    hide RpcId;
    forall m | 0 <= m < |s.requests| ensures Settled(WithPhase(s, n, p), m) {
      assert Settled(s, m);
    }
  }

  lemma MintKeepsInv(s: State)
    requires Inv(s)
    ensures Inv(Apply(s, Mint))
  {
    IdsDiffer();
    hide RpcId;
    var t := Apply(s, Mint);
    forall n | 0 <= n < |t.requests| ensures Settled(t, n) {
      if n < |s.requests| {
        assert Settled(s, n);
      }
    }
  }

  lemma RegisterKeepsInv(s: State, n: nat)
    requires Inv(s) && Enabled(s, Event.Register(n))
    ensures Inv(Apply(s, Event.Register(n)))
  {
    IdsDiffer();
    hide RpcId;
    assert Settled(s, n);
    var t := Apply(s, Event.Register(n));
    assert t == State(s.table.Register(s.requests[n].id, n), s.requests[n := s.requests[n].(phase := Registered)]);
    forall m | 0 <= m < |t.requests| ensures Settled(t, m) {
      assert Settled(s, m);
    }
  }

  lemma StepKeepsInv(s: State, e: Event)
    requires Inv(s)
    ensures Inv(Step(s, e))
  {
    if Enabled(s, e) {
      match e
      case Mint => MintKeepsInv(s);
      case Register(n) => RegisterKeepsInv(s, n);
      case SendOk(n) => assert Settled(s, n); PhaseKeepsInv(s, n, Waiting);
      case SendFailed(n) => assert Settled(s, n); PhaseKeepsInv(s, n, Abandoning);
      case Frame(id, result) => ResolvedKeepsInv(s, id, Verdict(result));
      case Receive(n) => assert Settled(s, n); PhaseKeepsInv(s, n, Finished(s.requests[n].slot.outcome));
      case TimedOut(n) => assert Settled(s, n); PhaseKeepsInv(s, n, Abandoning);
      case Withdraw(n) =>
        ResolvedKeepsInv(s, s.requests[n].id, Denied);
        assert Settled(Resolved(s, s.requests[n].id, Denied), n);
        PhaseKeepsInv(Resolved(s, s.requests[n].id, Denied), n, Finished(Denied));
    }
  }

  lemma {:induction false} RunKeepsInv(es: seq<Event>)
    ensures Inv(Run(es))
  {
    if es != [] {
      RunKeepsInv(es[..|es| - 1]);
      StepKeepsInv(Run(es[..|es| - 1]), es[|es| - 1]);
    }
  }

  // ----- What every run guarantees -----

  /** Ids minted by different requests, in whatever sessions, never repeat. */
  lemma MintedIdsNeverRepeat(es: seq<Event>, m: nat, n: nat)
    requires m < |Run(es).requests| && n < |Run(es).requests| && m != n
    ensures Run(es).requests[m].id != Run(es).requests[n].id
  {
    RunKeepsInv(es);
    IdsDiffer();
  }

  /** A finished request has left no entry behind, however it finished. */
  lemma FinishedLeavesNoEntry(es: seq<Event>, n: nat)
    requires n < |Run(es).requests| && Run(es).requests[n].phase.Finished?
    ensures Run(es).requests[n].id !in Run(es).table.inner
    ensures forall id :: id in Run(es).table.inner ==> Run(es).table.inner[id] != n
  {
    RunKeepsInv(es);
    assert Settled(Run(es), n);
  }

  /** A client frame for request n, with an allow option, that came while n was in the table. */
  ghost predicate AllowedAt(es: seq<Event>, k: nat, n: nat) {
    && k < |es|
    && es[k].Frame? && es[k].id == RpcId(n) && PicksAllow(es[k].result)
    && Run(es[..k]).table.Woken(RpcId(n)) == Some(n)
  }

  lemma AllowedAtExtends(es: seq<Event>, k: nat, n: nat)
    requires es != [] && AllowedAt(es[..|es| - 1], k, n)
    ensures AllowedAt(es, k, n)
  {
    assert es[..|es| - 1][..k] == es[..k];
  }

  /** The only step that brings a verdict of Allowed is the client's own frame. */
  lemma NewAllowance(s: State, e: Event, n: nat)
    requires Inv(s) && n < |Step(s, e).requests|
    requires var r := Step(s, e).requests[n]; r.phase == Finished(Allowed) || r.slot == Got(Allowed)
    requires n < |s.requests| ==> s.requests[n].phase != Finished(Allowed) && s.requests[n].slot != Got(Allowed)
    ensures e.Frame? && e.id == RpcId(n) && PicksAllow(e.result)
    ensures s.table.Woken(RpcId(n)) == Some(n)
  {
    hide RpcId, Settled;
    if e.Frame? {
      AllowedOnlyByOption(e.result);
    }
  }

  /** Nobody passes the gate without the client's own allow: a request that
      holds or returned Allowed was answered by a frame with its own id and an
      allow option while it was pending. */
  lemma {:induction false} AllowedHasItsFrame(es: seq<Event>, n: nat) returns (k: nat)
    requires n < |Run(es).requests|
    requires Run(es).requests[n].phase == Finished(Allowed) || Run(es).requests[n].slot == Got(Allowed)
    ensures AllowedAt(es, k, n)
  {
    var past, e := es[..|es| - 1], es[|es| - 1];
    var s := Run(past);
    RunKeepsInv(past);
    hide Inv, Settled, RpcId;
    if n < |s.requests| && (s.requests[n].phase == Finished(Allowed) || s.requests[n].slot == Got(Allowed)) {
      k := AllowedHasItsFrame(past, n);
      AllowedAtExtends(es, k, n);
    } else {
      NewAllowance(s, e, n);
      k := |es| - 1;
    }
  }

  /** A request returns once: nothing later changes what it returned. */
  lemma {:induction false} ReturnsOnce(es: seq<Event>, more: seq<Event>, n: nat)
    requires n < |Run(es).requests| && Run(es).requests[n].phase.Finished?
    ensures n < |Run(es + more).requests|
    ensures Run(es + more).requests[n].phase == Run(es).requests[n].phase
  {
    hide Apply, Enabled, Inv;
    if more == [] {
      assert es + more == es;
    } else {
      var before, e := es + more[..|more| - 1], more[|more| - 1];
      assert es + more == before + [e] && (es + more)[..|es + more| - 1] == before;
      ReturnsOnce(es, more[..|more| - 1], n);
      RunKeepsInv(before);
      if Enabled(Run(before), e) {
        FinishedStays(Run(before), e, n);
      }
    }
  }

  lemma FinishedStays(s: State, e: Event, n: nat)
    requires Inv(s) && Enabled(s, e) && n < |s.requests| && s.requests[n].phase.Finished?
    ensures n < |Apply(s, e).requests| && Apply(s, e).requests[n].phase == s.requests[n].phase
  {
  }

  // ----- When a request returns allowed -----

  /** A client frame with an allow option found the request in the table. */
  ghost predicate AllowCame(es: seq<Event>, n: nat) { exists k: nat :: AllowedAt(es, k, n) }

  /** The request could not be sent, or its wait ran out. */
  ghost predicate GaveUp(es: seq<Event>, n: nat) {
    exists k :: 0 <= k < |es| && (es[k] == SendFailed(n) || es[k] == TimedOut(n)) && Enabled(Run(es[..k]), es[k])
  }

  predicate Allows(s: State, e: Event, n: nat) {
    e.Frame? && e.id == RpcId(n) && PicksAllow(e.result) && s.table.Woken(RpcId(n)) == Some(n)
  }

  predicate GivesUp(s: State, e: Event, n: nat) { (e == SendFailed(n) || e == TimedOut(n)) && Enabled(s, e) }

  lemma HistoryGrows(es: seq<Event>, n: nat)
    requires es != []
    ensures var before, e := es[..|es| - 1], es[|es| - 1];
      && (AllowCame(es, n) <==> AllowCame(before, n) || Allows(Run(before), e, n))
      && (GaveUp(es, n) <==> GaveUp(before, n) || GivesUp(Run(before), e, n))
  {
    hide Run, Enabled, PicksAllow, RpcId;
    var last := |es| - 1;
    var before := es[..last];
    assert forall k :: 0 <= k < last ==> before[..k] == es[..k] && before[k] == es[k];
    if AllowCame(before, n) {
      var k: nat :| AllowedAt(before, k, n);
      assert AllowedAt(es, k, n);
    }
    if AllowCame(es, n) {
      var k: nat :| AllowedAt(es, k, n);
      assert k < last ==> AllowedAt(before, k, n);
    }
    assert Allows(Run(before), es[last], n) ==> AllowedAt(es, last, n);
  }

  /** As long as the request has not given up, what it has been told is that a client
      frame allowed it, or not; and what it returns is what it has been told. */
  ghost predicate Heard(s: State, n: nat, allowed: bool, gaveUp: bool) {
    n < |s.requests| ==>
      && (gaveUp ==> s.requests[n].phase.Abandoning? || s.requests[n].phase == Finished(Denied))
      && (!gaveUp ==>
          && !s.requests[n].phase.Abandoning?
          && (s.requests[n].phase.Finished? ==> s.requests[n].slot == Got(s.requests[n].phase.outcome))
          && (s.requests[n].slot == Got(Allowed) <==> allowed))
  }

  lemma OwnHeard(s: State, e: Event, n: nat, allowed: bool, gaveUp: bool)
    requires Inv(s) && Enabled(s, e) && !e.Frame? && !e.Mint? && !e.Register? && e.n == n
    requires Heard(s, n, allowed, gaveUp)
    ensures Heard(Apply(s, e), n, allowed || Allows(s, e, n), gaveUp || GivesUp(s, e, n))
  {
    assert Settled(s, n);
    hide RpcId, PicksAllow;
  }

  lemma FrameHeard(s: State, e: Event, n: nat, allowed: bool, gaveUp: bool)
    requires Inv(s) && Enabled(s, e) && e.Frame? && Heard(s, n, allowed, gaveUp)
    requires n >= |s.requests| ==> !allowed && !gaveUp
    ensures Heard(Apply(s, e), n, allowed || Allows(s, e, n), gaveUp || GivesUp(s, e, n))
  {
    IdsDiffer();
    AllowedOnlyByOption(e.result);
    assert n < |s.requests| ==> Settled(s, n);
    hide RpcId, PicksAllow, Verdict;
  }

  lemma OtherHeard(s: State, e: Event, n: nat, allowed: bool, gaveUp: bool)
    requires Inv(s) && Enabled(s, e) && !e.Frame? && (e.Mint? || e.Register? || e.n != n)
    requires Heard(s, n, allowed, gaveUp) && (n >= |s.requests| ==> !allowed && !gaveUp)
    ensures Heard(Apply(s, e), n, allowed || Allows(s, e, n), gaveUp || GivesUp(s, e, n))
  {
    IdsDiffer();
    assert n < |s.requests| ==> Settled(s, n);
    assert e.Register? ==> Settled(s, e.n);
    hide RpcId, PicksAllow;
  }

  lemma StepHeard(s: State, e: Event, n: nat, allowed: bool, gaveUp: bool)
    requires Inv(s) && Enabled(s, e) && Heard(s, n, allowed, gaveUp) && (n >= |s.requests| ==> !allowed && !gaveUp)
    ensures Heard(Apply(s, e), n, allowed || Allows(s, e, n), gaveUp || GivesUp(s, e, n))
  {
    hide Apply, Enabled, Heard, Allows, GivesUp, Inv;
    if e.Frame? {
      FrameHeard(s, e, n, allowed, gaveUp);
    } else if e.Mint? || e.Register? || e.n != n {
      OtherHeard(s, e, n, allowed, gaveUp);
    } else {
      OwnHeard(s, e, n, allowed, gaveUp);
    }
  }

  lemma {:induction false} RunHeard(es: seq<Event>, n: nat)
    ensures Heard(Run(es), n, AllowCame(es, n), GaveUp(es, n))
    ensures n >= |Run(es).requests| ==> !AllowCame(es, n) && !GaveUp(es, n)
  {
    hide Apply, Enabled, Heard, AllowCame, GaveUp, Allows, GivesUp, Inv;
    if es == [] {
      NothingHeard(n);
    } else {
      var before, e := es[..|es| - 1], es[|es| - 1];
      RunHeard(before, n);
      RunKeepsInv(before);
      HistoryGrows(es, n);
      if Enabled(Run(before), e) {
        StepHeard(Run(before), e, n, AllowCame(before, n), GaveUp(before, n));
      }
      NotThereYet(Run(before), e, n);
    }
  }

  lemma NothingHeard(n: nat)
    ensures Heard(Init(), n, false, false) && !AllowCame([], n) && !GaveUp([], n)
  {
  }

  /** What is not minted yet hears nothing and gives nothing up. */
  lemma NotThereYet(s: State, e: Event, n: nat)
    requires Inv(s)
    ensures |Step(s, e).requests| >= |s.requests|
    ensures n >= |s.requests| || !Enabled(s, e) ==> !Allows(s, e, n) && !GivesUp(s, e, n)
  {
    hide RpcId, Settled;
  }

  /** A request that has returned returned allowed exactly when a frame of the client
      with its id and an allow option came while it was in the table, and it had not
      given up. */
  lemma AllowedIff(es: seq<Event>, n: nat)
    requires n < |Run(es).requests| && Run(es).requests[n].phase.Finished?
    ensures Run(es).requests[n].phase == Finished(Allowed) <==> AllowCame(es, n) && !GaveUp(es, n)
  {
    RunHeard(es, n);
    hide Run, AllowCame, GaveUp;
  }
}
