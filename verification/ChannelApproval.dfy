/** Approval by chat reply: a waiter with a timeout, the reply watcher and the
    emergency-stop cleaner race for one request; a journal that takes the first
    decision only says who won. */
module ChannelApproval {
  import opened Wrappers

  // ----- The journal -----

  datatype Decision = Approved | Denied | Expired | Orphaned

  datatype Row = Absent | Pending | Decided(decision: Decision)

  function Recorded(r: Row): Row { if r.Absent? then Pending else r }

  /** A decision lands only on a pending row. */
  function Decide(r: Row, d: Decision): Row { if r.Pending? then Decided(d) else r }

  /** The approvals table; a request is named by its number. */
  class Journal {
    var rows: map<nat, Row>

    function Row(n: nat): Row
      reads this
    {
      if n in rows then rows[n] else Absent
    }

    constructor ()
      ensures forall n :: Row(n) == Absent
    {
      rows := map[];
    }

    method RecordPending(n: nat)
      modifies this
      ensures Row(n) == Recorded(old(Row(n)))
      ensures forall m :: m != n ==> Row(m) == old(Row(m))
    {
      if n !in rows {
        rows := rows[n := Pending];
      } else if rows[n].Absent? {
        rows := rows[n := Pending];
      }
    }

    method RecordDecision(n: nat, d: Decision) returns (won: bool)
      modifies this
      ensures won <==> old(Row(n)).Pending?
      ensures Row(n) == Decide(old(Row(n)), d)
      ensures forall m :: m != n ==> Row(m) == old(Row(m))
    {
      won := n in rows && rows[n].Pending?;
      if won {
        rows := rows[n := Decided(d)];
      }
    }
  }

  // ----- Short ids -----

  function Min(a: nat, b: nat): nat { if a <= b then a else b }

  /** The first free prefix among the lengths tried from `n` on, doubling; the
      whole id is taken even if it is not free. */
  function FirstFree(id: string, taken: set<string>, n: nat): (short: string)
    requires 1 <= n <= |id|
    decreases |id| - n
  {
    if id[..n] !in taken || n >= |id| then id[..n] else FirstFree(id, taken, Min(n * 2, |id|))
  }

  function ShortId(id: string, taken: set<string>): string
    requires id != []
  {
    FirstFree(id, taken, Min(8, |id|))
  }

  /** A short id is a prefix of at least eight characters where there are as
      many, and it is free unless the whole request id is itself taken. */
  lemma {:induction false} FirstFreeIsGood(id: string, taken: set<string>, n: nat)
    requires 1 <= n <= |id|
    ensures var short := FirstFree(id, taken, n);
      && short <= id && n <= |short|
      && (short in taken <==> id in taken && short == id)
      && (short != id[..n] ==> id[..n] in taken)
    decreases |id| - n
  {
    if id[..n] in taken && n < |id| {
      FirstFreeIsGood(id, taken, Min(n * 2, |id|));
    }
    assert id[..|id|] == id;
  }

  // ----- The pending cards, one lock section at a time -----

  /** The cards by short id, each standing for its request. */
  datatype Table = Table(pending: map<string, nat>) {
    function Card(short: string): Option<nat> { if short in pending then Some(pending[short]) else None }
    function Enter(short: string, n: nat): Table { Table(pending[short := n]) }
    function Without(short: string): Table { Table(pending - {short}) }
    function Drained(): Table { Table(map[]) }
    function Cards(): set<nat> { pending.Values }
  }

  /** The table changed in place, as the protocol below changes it. */
  class CardTable {
    var pending: map<string, nat>

    ghost function View(): Table
      reads this
    {
      Table(pending)
    }

    constructor ()
      ensures View() == Init().table
    {
      pending := map[];
    }

    /** Pick the short id and enter the card in one section. */
    method Register(id: string, n: nat) returns (short: string)
      requires id != []
      modifies this
      ensures short == ShortId(id, old(pending).Keys)
      ensures View() == old(View()).Enter(short, n)
    {
      var len := Min(8, |id|);
      while id[..len] in pending && len < |id|
        invariant 1 <= len <= |id|
        invariant pending == old(pending)
        invariant FirstFree(id, pending.Keys, len) == ShortId(id, pending.Keys)
        decreases |id| - len
      {
        len := Min(len * 2, |id|);
      }
      short := id[..len];
      pending := pending[short := n];
    }

    /** A reply to this card finds nothing from now on; the other cards stay. */
    method Remove(short: string)
      modifies this
      ensures View() == old(View()).Without(short)
      ensures forall x :: View().Card(x) == if x == short then None else old(View()).Card(x)
    {
      pending := pending - {short};
    }

    /** Every card that was in the table is handed to the cleaner, and no reply
        finds any of them after that. */
    method Drain() returns (cards: set<nat>)
      modifies this
      ensures View() == old(View()).Drained() && cards == old(View()).Cards()
      ensures forall short :: View().Card(short) == None
      ensures forall n :: n in cards <==> exists short :: old(View()).Card(short) == Some(n)
    {
      assert forall short :: old(View()).Card(short).Some? ==> old(View()).Card(short).value in pending.Values;
      assert forall n :: n in pending.Values ==> exists short :: short in pending && old(View()).Card(short) == Some(n);
      cards := pending.Values;
      pending := map[];
    }
  }

  // ----- The protocol -----

  datatype Stage =
    | Entered                        // card in the table, journal row not written
    | Waiting
    | Ended(verdict: Option<bool>)   // the wait is over, card not yet removed
    | Cleaned(verdict: Option<bool>)
    | TimedOut                       // recorded as expired, notice to be sent
    | Grace                          // somebody else decided: wait a little for it
    | Returned(approved: bool)
    | Dead                           // lost with the process

  /** `hit` is the reply that won while the card was in the table (history), `got`
      all verdicts sent, `read` how many the waiter took; `unsure` says that the
      journal failed to answer for this request, which counts as a win. */
  datatype Request = Request(
    id: string, short: string, stage: Stage, row: Row, hit: Option<bool>, got: seq<bool>, read: nat, notices: nat,
      unsure: bool)

  datatype Watcher =
    | Idle
    | Removing(n: nat)              // decided and sent: take the card out
    | Publishing(n: nat)
    | StaleFound(n: nat, approve: bool)

  datatype Cleaning = Drained | Won | Sent

  datatype State = State(requests: seq<Request>, table: Table, watcher: Watcher, closing: map<nat, Cleaning>)

  datatype Event =
    | Enter(id: string)
    | Record(n: nat, ok: bool)
    | Receive(n: nat)
    | Timeout(n: nat)
    | CleanUp(n: nat)
    | Settle(n: nat)
    | ExpireDecide(n: nat, answers: bool)
    | ExpireNotice(n: nat)
    | GraceReceive(n: nat)
    | GraceOver(n: nat)
    | ReplyHit(short: string, approve: bool, answers: bool)
    | WatcherRemove
    | WatcherPublish
    | ReplyMiss(short: string, n: nat, approve: bool)
    | StaleDecide(answers: bool)
    | Drain
    | CloseDecide(n: nat, answers: bool)
    | CloseSend(n: nat)
    | CloseNotice(n: nat)
    | Restart

  function Init(): State { State([], Table(map[]), Idle, map[]) }

  predicate At(s: State, n: nat, stage: Stage) { n < |s.requests| && s.requests[n].stage == stage }

  predicate Unread(r: Request) { r.read < |r.got| }

  /** The receiving end of the waiter still exists. */
  predicate Listening(stage: Stage) { !stage.Returned? && !stage.Dead? }

  predicate Enabled(s: State, e: Event) {
    match e
    case Enter(id) => id != [] && forall n :: 0 <= n < |s.requests| ==> s.requests[n].id != id
    case Record(n, _) => At(s, n, Entered)
    case Receive(n) => At(s, n, Waiting) && Unread(s.requests[n])
    case Timeout(n) => At(s, n, Waiting) && !Unread(s.requests[n])
    case CleanUp(n) => n < |s.requests| && s.requests[n].stage.Ended?
    case Settle(n) => n < |s.requests| && s.requests[n].stage.Cleaned? && s.requests[n].stage.verdict.Some?
    case ExpireDecide(n, _) => At(s, n, Cleaned(None))
    case ExpireNotice(n) => At(s, n, TimedOut)
    case GraceReceive(n) => At(s, n, Grace) && Unread(s.requests[n])
    case GraceOver(n) => At(s, n, Grace) && !Unread(s.requests[n])
    case ReplyHit(short, _, _) => s.watcher.Idle? && short in s.table.pending && s.table.pending[short] < |s.requests|
    case WatcherRemove => s.watcher.Removing? && s.watcher.n < |s.requests|
    case WatcherPublish => s.watcher.Publishing? && s.watcher.n < |s.requests|
    case ReplyMiss(short, n, _) =>
      && s.watcher.Idle? && short !in s.table.pending
      && n < |s.requests| && s.requests[n].row.Pending? && (s.requests[n].short == short || s.requests[n].id == short)
    case StaleDecide(_) => s.watcher.StaleFound? && s.watcher.n < |s.requests|
    case Drain => true
    case CloseDecide(n, _) => n in s.closing && n < |s.requests| && s.closing[n].Drained?
    case CloseSend(n) => n in s.closing && n < |s.requests| && s.closing[n].Won?
    case CloseNotice(n) => n in s.closing && n < |s.requests| && s.closing[n].Sent?
    case Restart => true
  }

  function Put(s: State, n: nat, r: Request): State
    requires n < |s.requests|
  {
    s.(requests := s.requests[n := r])
  }

  function To(s: State, n: nat, stage: Stage): State
    requires n < |s.requests|
  {
    Put(s, n, s.requests[n].(stage := stage))
  }

  function Verdict(approve: bool): Decision { if approve then Approved else Denied }

  function Crash(r: Request): Request { if Listening(r.stage) then r.(stage := Dead) else r }

  /** A reply that won, or for which the journal did not answer. */
  function ByReply(r: Request, approve: bool, answers: bool): Request {
    if answers then r.(row := Decide(r.row, Verdict(approve)), hit := Some(approve))
    else r.(hit := Some(approve), unsure := true)
  }

  function Apply(s: State, e: Event): State
    requires Enabled(s, e)
  {
    match e
    case Enter(id) =>
      var short := ShortId(id, s.table.pending.Keys);
      s.(requests := s.requests + [Request(id, short, Entered, Absent, None, [], 0, 0, false)],
         table := s.table.Enter(short, |s.requests|))
    case Record(n, ok) =>
      var r := s.requests[n];
      Put(s, n, r.(stage := Waiting, row := if ok then Recorded(r.row) else r.row))
    case Receive(n) =>
      var r := s.requests[n];
      Put(s, n, r.(stage := Ended(Some(r.got[r.read])), read := r.read + 1))
    case Timeout(n) => To(s, n, Ended(None))
    case CleanUp(n) =>
      To(s, n, Cleaned(s.requests[n].stage.verdict)).(table := s.table.Without(s.requests[n].short))
    case Settle(n) => To(s, n, Returned(s.requests[n].stage.verdict.value))
    case ExpireDecide(n, answers) =>
      var r := s.requests[n];
      if !answers then Put(s, n, r.(stage := TimedOut, unsure := true))
      else Put(s, n, r.(stage := if r.row.Pending? then TimedOut else Grace, row := Decide(r.row, Expired)))
    case ExpireNotice(n) =>
      var r := s.requests[n];
      Put(s, n, r.(stage := Returned(false), notices := r.notices + 1))
    case GraceReceive(n) =>
      var r := s.requests[n];
      Put(s, n, r.(stage := Returned(r.got[r.read]), read := r.read + 1))
    case GraceOver(n) => To(s, n, Returned(false))
    case ReplyHit(short, approve, answers) =>
      var n := s.table.pending[short];
      var r := s.requests[n];
      if answers && !r.row.Pending? then s
      else
        var decided := ByReply(r, approve, answers);
        if Listening(r.stage) then Put(s, n, decided.(got := r.got + [approve])).(watcher := Removing(n))
        else Put(s, n, decided)
    case WatcherRemove => s.(table := s.table.Without(s.requests[s.watcher.n].short),
      watcher := Publishing(s.watcher.n))
    case WatcherPublish =>
      var r := s.requests[s.watcher.n];
      Put(s, s.watcher.n, r.(notices := r.notices + 1)).(watcher := Idle)
    case ReplyMiss(_, n, approve) => s.(watcher := StaleFound(n, approve))
    case StaleDecide(answers) =>
      var n, r := s.watcher.n, s.requests[s.watcher.n];
      if answers && r.row.Pending?
        then Put(s, n, r.(row := Decide(r.row, Verdict(s.watcher.approve)))).(watcher := Publishing(n))
      else s.(watcher := Idle)
    case Drain =>
      s.(table := s.table.Drained(),
         closing := map n | n in s.closing.Keys + s.table.Cards() :: if n in s.closing then s.closing[n] else Drained)
    case CloseDecide(n, answers) =>
      var r := s.requests[n];
      if !answers then Put(s, n, r.(unsure := true)).(closing := s.closing[n := Won])
      else if r.row.Pending? then Put(s, n, r.(row := Decide(r.row, Orphaned))).(closing := s.closing[n := Won])
      else s.(closing := s.closing - {n})
    case CloseSend(n) =>
      var r := s.requests[n];
      (if Listening(r.stage) then Put(s, n, r.(got := r.got + [false])) else s).(closing := s.closing[n := Sent])
    case CloseNotice(n) =>
      var r := s.requests[n];
      Put(s, n, r.(notices := r.notices + 1)).(closing := s.closing - {n})
    case Restart =>
      State(seq(|s.requests|, i requires 0 <= i < |s.requests| => Crash(s.requests[i])), s.table.Drained(), Idle, map[])
  }

  function Step(s: State, e: Event): State { if Enabled(s, e) then Apply(s, e) else s }

  function Run(es: seq<Event>): State {
    if es == [] then Init() else Step(Run(es[..|es| - 1]), es[|es| - 1])
  }

  // ----- Invariant -----

  /** The row says who decided: a winning reply in the table, or the cleaner. */
  predicate RowMatches(r: Request) {
    match r.hit
    case Some(b) => r.row == Decided(Verdict(b)) && r.got == [b]
    case None => r.got == [] || (r.got == [false] && r.row == Decided(Orphaned))
  }

  /** What the waiter has taken fits what was sent. */
  predicate Taken(r: Request) {
    match r.stage
    case Entered => r.read == 0 && r.row == Absent
    case Waiting => r.read == 0
    case Ended(v) => if v.None? then r.read == 0 else r.got == [v.value]
    case Cleaned(v) => if v.None? then r.read == 0 else r.got == [v.value]
    case TimedOut => r.read == 0 && r.row == Decided(Expired)
    case Grace => r.read == 0 && !r.row.Pending?
    case Returned(v) => (r.hit.Some? || v) ==> r.got == [v]
    case Dead => true
  }

  /** Whatever the journal does: a waiter has been told approved, or is on its way
      to return it, only because of an approving reply. */
  predicate Heard(r: Request) {
    && (true in r.got ==> r.hit == Some(true))
    && (r.stage.Ended? && r.stage.verdict == Some(true) ==> r.hit == Some(true))
    && (r.stage.Cleaned? && r.stage.verdict == Some(true) ==> r.hit == Some(true))
    && (r.stage == Returned(true) ==> r.hit == Some(true))
  }

  predicate ReqOk(r: Request) { Heard(r) && (r.unsure || Sure(r)) }

  /** What holds of a request for which the journal has answered every time. */
  predicate Sure(r: Request) {
    && RowMatches(r) && Taken(r)
    && r.notices <= 1 && (!r.row.Decided? ==> r.notices == 0)
    && (r.stage.TimedOut? ==> r.notices == 0)
  }

  /** The card's waiter has not taken it out yet, no cleaner has it, and no reply has
      been heard, unless the watcher is about to take the card out for it. */
  ghost predicate CardOk(s: State, short: string)
    requires short in s.table.pending
  {
    var n := s.table.pending[short];
    && n < |s.requests| && s.requests[n].short == short && n !in s.closing
    && (s.requests[n].stage.Entered? || s.requests[n].stage.Waiting? || s.requests[n].stage.Ended?)
    && (s.watcher == Removing(n) || (!s.requests[n].unsure && s.requests[n].hit.None?))
  }

  /** Whoever is about to publish an outcome has won, and nobody published yet. */
  predicate WonByReply(r: Request) { r.notices == 0 && (r.row == Decided(Approved) || r.row == Decided(Denied)) }

  ghost predicate WatcherOk(s: State) {
    match s.watcher
    case Idle => true
    case StaleFound(n, _) => n < |s.requests| && !s.requests[n].row.Absent?
    case _ =>
      var n := s.watcher.n;
      n < |s.requests| && (s.requests[n].unsure || WonByReply(s.requests[n]))
  }

  ghost predicate ClosingOk(s: State, n: nat)
    requires n in s.closing
  {
    && n < |s.requests|
    && (s.requests[n].unsure
        || ((!s.closing[n].Drained? ==> s.requests[n].row == Decided(Orphaned) && s.requests[n].notices == 0)
            && (s.closing[n].Won? ==> s.requests[n].got == [])))
  }

  ghost predicate Inv(s: State) {
    && (forall n :: 0 <= n < |s.requests| ==> ReqOk(s.requests[n]))
    && (forall short :: short in s.table.pending ==> CardOk(s, short))
    && WatcherOk(s)
    && (forall n :: n in s.closing ==> ClosingOk(s, n))
  }

  /** The request an event is about. */
  function About(s: State, e: Event): Option<nat> {
    match e
    case Enter(_) => None
    case ReplyHit(short, _, _) => if short in s.table.pending then Some(s.table.pending[short]) else None
    case WatcherRemove => if s.watcher.Removing? then Some(s.watcher.n) else None
    case WatcherPublish => if s.watcher.Publishing? then Some(s.watcher.n) else None
    case StaleDecide(_) => if s.watcher.StaleFound? then Some(s.watcher.n) else None
    case Drain => None
    case Restart => None
    case _ => Some(e.n)
  }

  lemma AboutOk(s: State, e: Event)
    requires Inv(s) && Enabled(s, e)
    ensures About(s, e).Some? ==> About(s, e).value < |s.requests| && ReqOk(s.requests[About(s, e).value])
    ensures e.ReplyHit? ==> CardOk(s, e.short)
    ensures e.CloseDecide? || e.CloseSend? || e.CloseNotice? ==> ClosingOk(s, e.n)
    ensures WatcherOk(s)
  {
    hide ReqOk, CardOk, ClosingOk, WatcherOk;
  }

  /** Any other request stays as it is, or is lost with the process. */
  lemma Others(s: State, e: Event, n: nat)
    requires Enabled(s, e) && n < |s.requests| && About(s, e) != Some(n)
    ensures n < |Apply(s, e).requests|
    ensures Apply(s, e).requests[n] == if e.Restart? then Crash(s.requests[n]) else s.requests[n]
  {
    hide ShortId;
  }

  lemma StepRequest(s: State, e: Event, n: nat)
    requires Inv(s) && Enabled(s, e) && n < |Apply(s, e).requests|
    ensures ReqOk(Apply(s, e).requests[n])
  {
    AboutOk(s, e);
    assert n < |s.requests| ==> ReqOk(s.requests[n]);
    hide Inv, ShortId;
    if n < |s.requests| && About(s, e) != Some(n) {
      Others(s, e, n);
      hide Apply;
    } else if e.Enter? {
    } else {
      hide CardOk;
      StepSubject(s, e, n);
    }
  }

  /** Steps of the waiting thread itself. */
  predicate OfWaiter(e: Event) {
    || e.Record? || e.Receive? || e.Timeout? || e.CleanUp? || e.Settle? || e.ExpireDecide? || e.ExpireNotice?
    || e.GraceReceive? || e.GraceOver?
  }

  lemma StepSubject(s: State, e: Event, n: nat)
    requires Enabled(s, e) && n < |s.requests| && About(s, e) == Some(n) && ReqOk(s.requests[n])
    requires WatcherOk(s) && (e.ReplyHit? ==> CardOk(s, e.short))
    requires e.CloseDecide? || e.CloseSend? || e.CloseNotice? ==> ClosingOk(s, n)
    ensures n < |Apply(s, e).requests| && ReqOk(Apply(s, e).requests[n])
  {
    if OfWaiter(e) {
      SubjectOwn(s, e, n);
    } else {
      SubjectOther(s, e, n);
    }
    hide *;
  }

  lemma SubjectOwn(s: State, e: Event, n: nat)
    requires Enabled(s, e) && n < |s.requests| && About(s, e) == Some(n) && ReqOk(s.requests[n]) && OfWaiter(e)
    ensures n < |Apply(s, e).requests| && ReqOk(Apply(s, e).requests[n])
  {
  }

  predicate OfCleaner(e: Event) { e.CloseDecide? || e.CloseSend? || e.CloseNotice? }

  lemma SubjectOther(s: State, e: Event, n: nat)
    requires Enabled(s, e) && n < |s.requests| && About(s, e) == Some(n) && ReqOk(s.requests[n]) && !OfWaiter(e)
    requires WatcherOk(s) && (e.ReplyHit? ==> CardOk(s, e.short)) && (OfCleaner(e) ==> ClosingOk(s, n))
    ensures n < |Apply(s, e).requests| && ReqOk(Apply(s, e).requests[n])
  {
    if OfCleaner(e) {
      SubjectOfCleaner(s, e, n);
    } else {
      SubjectOfWatcher(s, e, n);
    }
    hide *;
  }

  lemma SubjectOfCleaner(s: State, e: Event, n: nat)
    requires Enabled(s, e) && OfCleaner(e) && n < |s.requests| && e.n == n && ReqOk(s.requests[n]) && ClosingOk(s, n)
    ensures n < |Apply(s, e).requests| && ReqOk(Apply(s, e).requests[n])
  {
  }

  lemma SubjectOfWatcher(s: State, e: Event, n: nat)
    requires Enabled(s, e) && n < |s.requests| && About(s, e) == Some(n) && ReqOk(s.requests[n]) && !OfWaiter(e)
      && !OfCleaner(e)
    requires WatcherOk(s) && (e.ReplyHit? ==> CardOk(s, e.short))
    ensures n < |Apply(s, e).requests| && ReqOk(Apply(s, e).requests[n])
  {
  }

  lemma StepCard(s: State, e: Event, short: string)
    requires Inv(s) && Enabled(s, e) && short in Apply(s, e).table.pending
    ensures CardOk(Apply(s, e), short)
  {
    assert short in s.table.pending ==> CardOk(s, short);
    NewIsNotClosing(s);
    hide Inv, CardOk, ShortId;
    if OfWaiter(e) {
      CardOwn(s, e, short);
    } else {
      CardOther(s, e, short);
    }
  }

  lemma CardOwn(s: State, e: Event, short: string)
    requires Enabled(s, e) && OfWaiter(e) && short in Apply(s, e).table.pending
    requires short in s.table.pending ==> CardOk(s, short)
    ensures CardOk(Apply(s, e), short)
  {
  }

  lemma CardOther(s: State, e: Event, short: string)
    requires Enabled(s, e) && !OfWaiter(e) && short in Apply(s, e).table.pending
    requires (short in s.table.pending ==> CardOk(s, short)) && |s.requests| !in s.closing
    ensures CardOk(Apply(s, e), short)
  {
    hide ShortId;
  }

  lemma NewIsNotClosing(s: State)
    requires Inv(s)
    ensures |s.requests| !in s.closing
  {
    assert forall n :: n in s.closing ==> ClosingOk(s, n);
  }

  lemma StepWatcher(s: State, e: Event)
    requires Inv(s) && Enabled(s, e)
    ensures WatcherOk(Apply(s, e))
  {
    AboutOk(s, e);
    assert !s.watcher.Idle? && s.watcher.n < |s.requests| ==> ReqOk(s.requests[s.watcher.n]);
    hide Inv, ShortId;
    if e.WatcherRemove? || e.WatcherPublish? || e.StaleDecide? || e.ReplyHit? || e.ReplyMiss? {
      WatcherOwn(s, e);
    } else {
      WatcherOther(s, e);
    }
    hide *;
  }

  lemma WatcherOwn(s: State, e: Event)
    requires Enabled(s, e) && WatcherOk(s)
    requires e.WatcherRemove? || e.WatcherPublish? || e.StaleDecide? || e.ReplyHit? || e.ReplyMiss?
    requires !s.watcher.Idle? && s.watcher.n < |s.requests| ==> ReqOk(s.requests[s.watcher.n])
    requires e.ReplyHit? ==> s.table.pending[e.short] < |s.requests| && ReqOk(s.requests[s.table.pending[e.short]])
    ensures WatcherOk(Apply(s, e))
  {
  }

  lemma WatcherOther(s: State, e: Event)
    requires Enabled(s, e) && WatcherOk(s)
    requires !(e.WatcherRemove? || e.WatcherPublish? || e.StaleDecide? || e.ReplyHit? || e.ReplyMiss?)
    requires !s.watcher.Idle? && s.watcher.n < |s.requests| ==> ReqOk(s.requests[s.watcher.n])
    requires e.CloseDecide? || e.CloseSend? || e.CloseNotice? ==> ClosingOk(s, e.n)
    ensures WatcherOk(Apply(s, e))
  {
    hide ShortId;
    if !s.watcher.Idle? && About(s, e) != Some(s.watcher.n) {
      Others(s, e, s.watcher.n);
    }
  }

  lemma StepClosing(s: State, e: Event, n: nat)
    requires Inv(s) && Enabled(s, e) && n in Apply(s, e).closing
    ensures ClosingOk(Apply(s, e), n)
  {
    if e.Drain? {
      DrainClosing(s, n);
    } else if !e.Restart? {
      assert n in s.closing && ClosingOk(s, n);
      assert n < |s.requests| && ReqOk(s.requests[n]);
      hide Inv, ShortId;
      if About(s, e) == Some(n) {
        AboutClosing(s, e, n);
      } else {
        Others(s, e, n);
      }
    }
  }

  lemma DrainClosing(s: State, n: nat)
    requires Inv(s) && n in Apply(s, Drain).closing
    ensures ClosingOk(Apply(s, Drain), n)
  {
    if n in s.closing {
      assert ClosingOk(s, n);
    } else {
      var short :| short in s.table.pending && s.table.pending[short] == n;
      assert CardOk(s, short);
    }
  }

  lemma AboutClosing(s: State, e: Event, n: nat)
    requires Enabled(s, e) && n in s.closing && ClosingOk(s, n) && n < |s.requests| && ReqOk(s.requests[n])
    requires WatcherOk(s) && About(s, e) == Some(n) && n in Apply(s, e).closing
    ensures ClosingOk(Apply(s, e), n)
  {
    if OfWaiter(e) {
      WaiterClosing(s, e, n);
      hide *;
    } else {
      hide Heard;
    }
  }

  lemma WaiterClosing(s: State, e: Event, n: nat)
    requires Enabled(s, e) && OfWaiter(e) && n in s.closing && ClosingOk(s, n) && n < |s.requests|
      && ReqOk(s.requests[n])
    requires About(s, e) == Some(n)
    ensures n in Apply(s, e).closing && ClosingOk(Apply(s, e), n)
  {
  }

  lemma StepKeepsInv(s: State, e: Event)
    requires Inv(s) && Enabled(s, e)
    ensures Inv(Apply(s, e))
  {
    hide ReqOk, CardOk, WatcherOk, ClosingOk;
    var t := Apply(s, e);
    forall n | 0 <= n < |t.requests| ensures ReqOk(t.requests[n]) { StepRequest(s, e, n); }
    forall short | short in t.table.pending ensures CardOk(t, short) { StepCard(s, e, short); }
    forall n | n in t.closing ensures ClosingOk(t, n) { StepClosing(s, e, n); }
    StepWatcher(s, e);
    hide Apply, Enabled;
  }

  lemma {:induction false} RunKeepsInv(es: seq<Event>)
    ensures Inv(Run(es))
  {
    hide Apply, Enabled;
    if es != [] {
      RunKeepsInv(es[..|es| - 1]);
      if Enabled(Run(es[..|es| - 1]), es[|es| - 1]) {
        StepKeepsInv(Run(es[..|es| - 1]), es[|es| - 1]);
      }
    }
  }

  // ----- What holds over every run -----

  lemma RequestIsOk(es: seq<Event>, n: nat)
    requires n < |Run(es).requests|
    ensures ReqOk(Run(es).requests[n])
  {
    RunKeepsInv(es);
  }

  lemma RunSplits(es: seq<Event>, e: Event)
    ensures Run(es + [e]) == Step(Run(es), e)
  {
    assert (es + [e])[..|es|] == es;
  }

  /** What a request keeps from one step to the next. */
  ghost predicate Keeps(before: Request, after: Request) {
    && (before.row.Decided? ==> after.row == before.row)
    && (before.unsure ==> after.unsure)
    && (before.hit.Some? ==> after.hit == before.hit)
    && (before.stage.Returned? ==> after.stage == before.stage)
    && before.notices <= after.notices
  }

  lemma StepKeeps(s: State, e: Event, n: nat)
    requires Inv(s) && Enabled(s, e) && n < |s.requests|
    ensures n < |Apply(s, e).requests| && Keeps(s.requests[n], Apply(s, e).requests[n])
  {
    AboutOk(s, e);
    assert ReqOk(s.requests[n]);
    hide Inv, ShortId;
    if About(s, e) != Some(n) {
      Others(s, e, n);
      hide Apply;
    } else if OfWaiter(e) {
      WaiterKeeps(s, e, n);
      hide *;
    } else {
      OtherKeeps(s, e, n);
      hide *;
    }
  }

  lemma OtherKeeps(s: State, e: Event, n: nat)
    requires Enabled(s, e) && !OfWaiter(e) && n < |s.requests| && About(s, e) == Some(n)
    requires e.ReplyHit? ==> CardOk(s, e.short)
    ensures n < |Apply(s, e).requests| && Keeps(s.requests[n], Apply(s, e).requests[n])
  {
  }

  lemma WaiterKeeps(s: State, e: Event, n: nat)
    requires Enabled(s, e) && OfWaiter(e) && n < |s.requests| && About(s, e) == Some(n)
    ensures n < |Apply(s, e).requests| && Keeps(s.requests[n], Apply(s, e).requests[n])
  {
  }

  /** The first decision is final, and so are the reply that was heard and a return,
      whatever the journal does. */
  lemma {:induction false} FactsStay(es: seq<Event>, more: seq<Event>, n: nat)
    requires n < |Run(es).requests|
    ensures n < |Run(es + more).requests| && Keeps(Run(es).requests[n], Run(es + more).requests[n])
    decreases |more|
  {
    hide Apply, Enabled;
    if more == [] {
      assert es + more == es;
    } else {
      var before, e := es + more[..|more| - 1], more[|more| - 1];
      FactsStay(es, more[..|more| - 1], n);
      assert es + more == before + [e];
      RunSplits(before, e);
      RunKeepsInv(before);
      if Enabled(Run(before), e) {
        StepKeeps(Run(before), e, n);
      }
    }
  }

  // ----- What does not hold -----

  /** The wait ends, the card is taken out, and a late approval is put on record
      by way of the journal before the waiter records the expiry. */
  function LateReply(): seq<Event> {
    [Enter("r"), Record(0, true), Timeout(0), CleanUp(0), ReplyMiss("r", 0, true), StaleDecide(true),
      ExpireDecide(0, true), GraceOver(0)]
  }

  const WAITED := State([Request("r", "r", Cleaned(None), Pending, None, [], 0, 0, false)], Table(map[]), Idle, map[])

  lemma LateReplyUnfolds()
    ensures Run(LateReply()) ==
      Step(Step(Step(Step(Step(Step(Step(Step(Init(), Enter("r")), Record(0, true)), Timeout(0)), CleanUp(0)),
        ReplyMiss("r", 0, true)), StaleDecide(true)), ExpireDecide(0, true)), GraceOver(0))
  {
    hide Step;
    var e := LateReply();
    assert e[..0] == [] && e[..1] == e[..0] + [e[0]] && e[..2] == e[..1] + [e[1]] && e[..3] == e[..2] + [e[2]];
    assert e[..4] == e[..3] + [e[3]] && e[..5] == e[..4] + [e[4]] && e[..6] == e[..5] + [e[5]];
    assert e[..7] == e[..6] + [e[6]] && e == e[..7] + [e[7]];
    RunSplits(e[..0], e[0]);
    RunSplits(e[..1], e[1]);
    RunSplits(e[..2], e[2]);
    RunSplits(e[..3], e[3]);
    RunSplits(e[..4], e[4]);
    RunSplits(e[..5], e[5]);
    RunSplits(e[..6], e[6]);
    RunSplits(e[..7], e[7]);
  }

  lemma FirstFour()
    ensures Step(Step(Step(Step(Init(), Enter("r")), Record(0, true)), Timeout(0)), CleanUp(0)) == WAITED
  {
    assert ShortId("r", {}) == "r" by { assert "r"[..1] == "r"; }
    var s1 := Step(Init(), Enter("r"));
    assert s1 == State([Request("r", "r", Entered, Absent, None, [], 0, 0, false)], Table(map["r" := 0]), Idle, map[]);
    var s2 := Step(s1, Record(0, true));
    assert s2 == State([Request("r", "r", Waiting, Pending, None, [], 0, 0, false)], Table(map["r" := 0]), Idle, map[]);
    var s3 := Step(s2, Timeout(0));
    assert s3 == State([Request("r", "r", Ended(None), Pending, None, [], 0, 0, false)], Table(map["r" := 0]), Idle,
      map[]);
  }

  lemma LastFour()
    ensures Step(Step(Step(Step(WAITED, ReplyMiss("r", 0, true)), StaleDecide(true)), ExpireDecide(0, true)),
      GraceOver(0))
      == State([Request("r", "r", Returned(false), Decided(Approved), None, [], 0, 0, false)], Table(map[]),
        Publishing(0), map[])
  {
    var s1 := Step(WAITED, ReplyMiss("r", 0, true));
    assert s1 == WAITED.(watcher := StaleFound(0, true));
    var s2 := Step(s1, StaleDecide(true));
    assert s2 == State([Request("r", "r", Cleaned(None), Decided(Approved), None, [], 0, 0, false)], Table(map[]),
      Publishing(0), map[]);
    var s3 := Step(s2, ExpireDecide(0, true));
    assert s3 == State([Request("r", "r", Grace, Decided(Approved), None, [], 0, 0, false)], Table(map[]),
      Publishing(0), map[]);
  }

  /** The converse direction fails: Approved may be on record for a request whose
      waiter returned denied. */
  lemma ApprovedYetDenied()
    ensures At(Run(LateReply()), 0, Returned(false)) && Run(LateReply()).requests[0].row == Decided(Approved)
  {
    LateReplyUnfolds();
    FirstFour();
    LastFour();
    hide Run, Step, LateReply;
  }
}
