/** What the approvals owe to the journal's answers. An answer that fails to come
    counts as a win for whoever asked; for each guarantee it is said which of the
    journal's callers have to be answered for it. */
module ChannelApprovalJournal {
  import opened Wrappers
  import opened ChannelApproval

  /** Who asks the journal for a decision. */
  datatype Caller = Reply | Stale | Expiry | Closing

  function CallerOf(e: Event): Option<Caller> {
    match e
    case ReplyHit(_, _, _) => Some(Reply)
    case StaleDecide(_) => Some(Stale)
    case ExpireDecide(_, _) => Some(Expiry)
    case CloseDecide(_, _) => Some(Closing)
    case _ => None
  }

  /** The journal does not answer call `e`, which is about request `n`. */
  predicate Unheard(s: State, e: Event, n: nat, c: Caller) {
    Enabled(s, e) && About(s, e) == Some(n) && CallerOf(e) == Some(c) && !e.answers
  }

  /** The journal answers caller `c` whenever it asks about request `n`. */
  ghost predicate Answers(es: seq<Event>, n: nat, c: Caller) {
    forall k :: 0 <= k < |es| ==> !Unheard(Run(es[..k]), es[k], n, c)
  }

  lemma AnswersStep(es: seq<Event>, n: nat, c: Caller)
    requires es != []
    ensures var before, e := es[..|es| - 1], es[|es| - 1];
      Answers(es, n, c) <==> (Answers(before, n, c) && !Unheard(Run(before), e, n, c))
  {
    hide Run, Unheard;
    var last := |es| - 1;
    var before := es[..last];
    assert forall k :: 0 <= k < last ==> before[..k] == es[..k] && before[k] == es[k];
  }

  // ----- One request, one step -----

  /** The reply that was heard is on record. */
  predicate OnRecord(r: Request) { r.hit.Some? ==> r.row == Decided(Verdict(r.hit.value)) }

  lemma StepOnRecord(s: State, e: Event, n: nat)
    requires Inv(s) && Enabled(s, e) && n < |Apply(s, e).requests| && !Unheard(s, e, n, Reply)
    requires n < |s.requests| ==> OnRecord(s.requests[n])
    ensures OnRecord(Apply(s, e).requests[n])
  {
    if n < |s.requests| {
      StepKeeps(s, e, n);
      if About(s, e) != Some(n) {
        Others(s, e, n);
        hide Apply;
      }
    }
    hide Inv, ShortId;
  }

  /** A reply is what the waiter has been told first, and it has not been told or
      about to return anything else. */
  predicate Heeded(r: Request, approve: bool) {
    && r.row == Decided(Verdict(approve)) && r.got != [] && r.got[0] == approve
    && match r.stage
       case Ended(v) => if v.None? then r.read == 0 else v.value == approve
       case Cleaned(v) => if v.None? then r.read == 0 else v.value == approve
       case TimedOut => false
       case Returned(v) => v == approve
       case Dead => true
       case _ => r.read == 0
  }

  lemma StepHeeded(s: State, e: Event, n: nat, approve: bool)
    requires Enabled(s, e) && n < |s.requests| && Heeded(s.requests[n], approve) && !Unheard(s, e, n, Expiry)
    ensures n < |Apply(s, e).requests| && Heeded(Apply(s, e).requests[n], approve)
  {
    if About(s, e) != Some(n) {
      Others(s, e, n);
      hide Apply;
    }
    hide ShortId;
  }

  /** Reply `e` wins the journal for request `n`, whose card is in the table. */
  predicate Wins(s: State, e: Event, n: nat, approve: bool) {
    && e.ReplyHit? && e.approve == approve && e.answers && Enabled(s, e)
    && s.table.pending[e.short] == n && s.requests[n].row.Pending?
  }

  lemma WinIsHeeded(s: State, e: Event, n: nat, approve: bool)
    requires Inv(s) && Wins(s, e, n, approve)
    ensures n < |Apply(s, e).requests| && Heeded(Apply(s, e).requests[n], approve)
  {
    assert CardOk(s, e.short) && ReqOk(s.requests[n]);
    hide Inv, ShortId;
  }

  /** Where the journal has answered, the reply that was heard is heeded. */
  predicate HeardIsHeeded(r: Request) { r.hit.Some? ==> Heeded(r, r.hit.value) }

  lemma StepHeard(s: State, e: Event, n: nat)
    requires Inv(s) && Enabled(s, e) && n < |Apply(s, e).requests|
    requires !Unheard(s, e, n, Reply) && !Unheard(s, e, n, Expiry)
    requires n < |s.requests| ==> HeardIsHeeded(s.requests[n])
    ensures HeardIsHeeded(Apply(s, e).requests[n])
  {
    if n < |s.requests| {
      StepKeeps(s, e, n);
      if s.requests[n].hit.Some? {
        StepHeeded(s, e, n, s.requests[n].hit.value);
        hide Apply, Heeded, Inv;
      } else if Apply(s, e).requests[n].hit.Some? {
        HitIsWin(s, e, n);
        WinIsHeeded(s, e, n, e.approve);
        hide Heeded, Inv, ShortId;
      }
    } else {
      NewIsUnheard(s, e, n);
      hide Apply, Heeded, Inv;
    }
  }

  /** A reply is heard only as the winner, or when the journal does not answer. */
  lemma HitIsWin(s: State, e: Event, n: nat)
    requires Enabled(s, e) && n < |s.requests| && n < |Apply(s, e).requests|
    requires s.requests[n].hit.None? && Apply(s, e).requests[n].hit.Some? && !Unheard(s, e, n, Reply)
    ensures e.ReplyHit? && Wins(s, e, n, e.approve)
  {
    if About(s, e) != Some(n) {
      Others(s, e, n);
    }
    hide ShortId;
  }

  lemma NewIsUnheard(s: State, e: Event, n: nat)
    requires Enabled(s, e) && |s.requests| <= n < |Apply(s, e).requests|
    ensures Apply(s, e).requests[n].hit.None? && !Apply(s, e).requests[n].unsure
  {
    hide ShortId;
  }

  lemma StepSure(s: State, e: Event, n: nat)
    requires Enabled(s, e) && n < |s.requests| && n < |Apply(s, e).requests|
    requires Apply(s, e).requests[n].unsure && !s.requests[n].unsure
    ensures Unheard(s, e, n, Reply) || Unheard(s, e, n, Expiry) || Unheard(s, e, n, Closing)
  {
    if About(s, e) != Some(n) {
      Others(s, e, n);
    }
    hide ShortId;
  }

  // ----- Runs -----

  lemma {:induction false} RunOnRecord(es: seq<Event>, n: nat)
    requires Answers(es, n, Reply) && n < |Run(es).requests|
    ensures OnRecord(Run(es).requests[n])
  {
    hide Apply, Enabled, Inv, Answers, Unheard, OnRecord;
    if es != [] {
      var before, e := es[..|es| - 1], es[|es| - 1];
      AnswersStep(es, n, Reply);
      RunKeepsInv(before);
      if n < |Run(before).requests| {
        RunOnRecord(before, n);
      }
      if Enabled(Run(before), e) {
        StepOnRecord(Run(before), e, n);
      }
    }
  }

  lemma {:induction false} RunHeard(es: seq<Event>, n: nat)
    requires Answers(es, n, Reply) && Answers(es, n, Expiry) && n < |Run(es).requests|
    ensures HeardIsHeeded(Run(es).requests[n])
  {
    hide Apply, Enabled, Inv, Answers, Unheard, HeardIsHeeded;
    if es != [] {
      var before, e := es[..|es| - 1], es[|es| - 1];
      AnswersStep(es, n, Reply);
      AnswersStep(es, n, Expiry);
      RunKeepsInv(before);
      if n < |Run(before).requests| {
        RunHeard(before, n);
      }
      if Enabled(Run(before), e) {
        StepHeard(Run(before), e, n);
      }
    }
  }

  lemma {:induction false} RunSure(es: seq<Event>, n: nat)
    requires Answers(es, n, Reply) && Answers(es, n, Expiry) && Answers(es, n, Closing) && n < |Run(es).requests|
    ensures !Run(es).requests[n].unsure
  {
    hide Apply, Enabled, Inv, Answers, Unheard;
    if es != [] {
      var before, e := es[..|es| - 1], es[|es| - 1];
      AnswersStep(es, n, Reply);
      AnswersStep(es, n, Expiry);
      AnswersStep(es, n, Closing);
      if n < |Run(before).requests| {
        RunSure(before, n);
        if Enabled(Run(before), e) && Run(es).requests[n].unsure {
          StepSure(Run(before), e, n);
        }
      } else if Enabled(Run(before), e) {
        NewIsUnheard(Run(before), e, n);
      }
    }
  }

  /** A waiter returns approved only because of an approving reply that came while
      its card was in the table and that the journal did not turn down. Approved is
      then on record as long as the journal answers the replies; and every approving
      reply heard leads to approved as long as it answers replies and expiry. */
  lemma ApprovedIffReplyWon(es: seq<Event>, n: nat, v: bool)
    requires At(Run(es), n, Returned(v))
    ensures v ==> Run(es).requests[n].hit == Some(true)
    ensures v && Answers(es, n, Reply) ==> Run(es).requests[n].row == Decided(Approved)
    ensures Answers(es, n, Reply) && Answers(es, n, Expiry) ==> (v <==> Run(es).requests[n].hit == Some(true))
  {
    RequestIsOk(es, n);
    if Answers(es, n, Reply) {
      RunOnRecord(es, n);
      if Answers(es, n, Expiry) {
        RunHeard(es, n);
      }
    }
    hide Run, Answers;
  }

  /** Event `k` of the run wins the journal for request `n`. */
  predicate WinsAt(es: seq<Event>, k: nat, n: nat, approve: bool) { k < |es| && Wins(Run(es[..k]), es[k], n, approve) }

  lemma {:induction false} WinStaysHeeded(es: seq<Event>, k: nat, n: nat, approve: bool)
    requires WinsAt(es, k, n, approve) && Answers(es, n, Expiry)
    ensures n < |Run(es).requests| && Heeded(Run(es).requests[n], approve)
  {
    hide Apply, Enabled, Inv, Answers, Unheard, Heeded;
    var before, e := es[..|es| - 1], es[|es| - 1];
    AnswersStep(es, n, Expiry);
    if k == |es| - 1 {
      assert es[..k] == before;
      RunKeepsInv(before);
      WinIsHeeded(Run(before), e, n, approve);
      WinIsEnabled(Run(before), e, n, approve);
    } else {
      assert before[..k] == es[..k] && before[k] == es[k];
      WinStaysHeeded(before, k, n, approve);
      if Enabled(Run(before), e) {
        StepHeeded(Run(before), e, n, approve);
      }
    }
  }

  lemma WinIsEnabled(s: State, e: Event, n: nat, approve: bool)
    requires Wins(s, e, n, approve)
    ensures Enabled(s, e)
  {
  }

  /** A reply that wins while the card is in the table is what the waiter returns,
      even if its timeout had already fired, as long as the journal answers the
      expiry. */
  lemma WinningReplyIsReturned(es: seq<Event>, k: nat, n: nat, approve: bool, v: bool)
    requires WinsAt(es, k, n, approve) && Answers(es, n, Expiry) && At(Run(es), n, Returned(v))
    ensures v == approve
  {
    WinStaysHeeded(es, k, n, approve);
    hide Run, Answers, WinsAt;
  }

  /** At most one outcome notice is published per request, and none before the
      journal has a decision, as long as it answers all but the stale replies. */
  lemma AtMostOneNotice(es: seq<Event>, n: nat)
    requires n < |Run(es).requests|
    requires Answers(es, n, Reply) && Answers(es, n, Expiry) && Answers(es, n, Closing)
    ensures Run(es).requests[n].notices <= 1
    ensures Run(es).requests[n].notices == 1 ==> Run(es).requests[n].row.Decided?
  {
    RunSure(es, n);
    RequestIsOk(es, n);
    hide Run, Answers;
  }

  // ----- Approved on record, denied returned -----

  /** A reply that found no card decides request `n`. */
  predicate StaleWins(s: State, e: Event, n: nat) {
    Enabled(s, e) && e.StaleDecide? && e.answers && s.watcher.n == n && s.requests[n].row.Pending?
  }

  ghost predicate NoStaleWin(es: seq<Event>, n: nat) { forall k :: 0 <= k < |es| ==>
    !StaleWins(Run(es[..k]), es[k], n) }

  lemma NoStaleWinStep(es: seq<Event>, n: nat)
    requires es != []
    ensures var before, e := es[..|es| - 1], es[|es| - 1];
      NoStaleWin(es, n) <==> (NoStaleWin(before, n) && !StaleWins(Run(before), e, n))
  {
    hide Run, StaleWins;
    var last := |es| - 1;
    var before := es[..last];
    assert forall k :: 0 <= k < last ==> before[..k] == es[..k] && before[k] == es[k];
  }

  /** Who has decided: nobody, a reply to the card, or a stale one. */
  predicate DecidedBy(r: Request, stale: bool) {
    && (stale ==> r.hit.None? && r.row.Decided?)
    && (!stale && r.row == Decided(Approved) ==> r.hit == Some(true))
  }

  lemma StepDecidedBy(s: State, e: Event, n: nat, stale: bool)
    requires Enabled(s, e) && n < |s.requests| && !Unheard(s, e, n, Reply)
    requires DecidedBy(s.requests[n], stale) && OnRecord(s.requests[n])
    ensures n < |Apply(s, e).requests| && DecidedBy(Apply(s, e).requests[n], stale || StaleWins(s, e, n))
  {
    if About(s, e) != Some(n) {
      Others(s, e, n);
      hide Apply;
    }
    hide ShortId;
  }

  lemma NewIsUndecided(s: State, e: Event, n: nat)
    requires Enabled(s, e) && |s.requests| <= n < |Apply(s, e).requests|
    ensures DecidedBy(Apply(s, e).requests[n], false) && !StaleWins(s, e, n)
  {
    hide ShortId;
  }

  lemma NoStaleWinYet(s: State, e: Event, n: nat)
    requires n >= |s.requests|
    ensures !StaleWins(s, e, n)
  {
  }

  /** A request that is not there yet has not been decided. */
  lemma {:induction false} NotThereYet(es: seq<Event>, n: nat)
    requires n >= |Run(es).requests|
    ensures NoStaleWin(es, n)
  {
    hide Apply, Enabled, StaleWins, NoStaleWin;
    if es == [] {
      assert NoStaleWin([], n) by { NothingYet(n); }
    } else {
      var before, e := es[..|es| - 1], es[|es| - 1];
      NoStaleWinStep(es, n);
      RequestsGrow(Run(before), e);
      NotThereYet(before, n);
      NoStaleWinYet(Run(before), e, n);
    }
  }

  lemma NothingYet(n: nat)
    ensures NoStaleWin([], n)
  {
  }

  lemma RequestsGrow(s: State, e: Event)
    ensures |s.requests| <= |Step(s, e).requests|
  {
    hide ShortId;
  }

  lemma {:induction false} RunDecidedBy(es: seq<Event>, n: nat)
    requires Answers(es, n, Reply) && n < |Run(es).requests|
    ensures DecidedBy(Run(es).requests[n], !NoStaleWin(es, n))
  {
    hide Apply, Enabled, Answers, Unheard, OnRecord, DecidedBy, StaleWins, NoStaleWin;
    if es != [] {
      var before, e := es[..|es| - 1], es[|es| - 1];
      AnswersStep(es, n, Reply);
      NoStaleWinStep(es, n);
      if n < |Run(before).requests| {
        RunDecidedBy(before, n);
        RunOnRecord(before, n);
        if Enabled(Run(before), e) {
          StepDecidedBy(Run(before), e, n, !NoStaleWin(before, n));
        } else {
          NotEnabled(Run(before), e, n);
        }
      } else {
        NotThereYet(before, n);
        if Enabled(Run(before), e) {
          NewIsUndecided(Run(before), e, n);
        }
      }
    }
  }

  lemma NotEnabled(s: State, e: Event, n: nat)
    requires !Enabled(s, e)
    ensures !StaleWins(s, e, n)
  {
  }

  /** Approved is on record and the waiter has returned, and the journal answered
      replies and expiry: it has returned approved if and only if the decision was
      not that of a stale reply. */
  lemma RecordedIsReturnedIff(es: seq<Event>, n: nat, v: bool)
    requires Answers(es, n, Reply) && Answers(es, n, Expiry)
    requires At(Run(es), n, Returned(v)) && Run(es).requests[n].row == Decided(Approved)
    ensures v <==> NoStaleWin(es, n)
  {
    ApprovedIffReplyWon(es, n, v);
    RunDecidedBy(es, n);
    hide Run, Answers, NoStaleWin;
  }

  // ----- Runs in which a call is not answered -----

  function Card(stage: Stage, row: Row, hit: Option<bool>, got: seq<bool>, notices: nat, unsure: bool): Request {
    Request("r", "r", stage, row, hit, got, 0, notices, unsure)
  }

  /** One request, with its card in the table or out of it. */
  function Alone(r: Request, listed: bool, watcher: Watcher, closing: map<nat, Cleaning>): State {
    State([r], Table(if listed then map["r" := 0] else map[]), watcher, closing)
  }

  lemma Next(es: seq<Event>, e: Event, s: State, t: State)
    requires Run(es) == s && Step(s, e) == t
    ensures Run(es + [e]) == t
  {
    RunSplits(es, e);
    hide Run, Step;
  }

  function Asked(): seq<Event> { [] + [Enter("r")] + [Record(0, true)] }

  function AskedState(): State { Alone(Card(Waiting, Pending, None, [], 0, false), true, Idle, map[]) }

  lemma AskedIs()
    ensures Run(Asked()) == AskedState()
  {
    assert ShortId("r", {}) == "r" by { assert "r"[..1] == "r"; }
    var s := Alone(Card(Entered, Absent, None, [], 0, false), true, Idle, map[]);
    assert Step(Init(), Enter("r")) == s;
    Next([], Enter("r"), Init(), s);
    assert Step(s, Record(0, true)) == AskedState();
    Next([] + [Enter("r")], Record(0, true), s, AskedState());
  }

  /** The reply is heard although the journal does not answer. */
  function Unanswered(
    ): seq<Event> { Asked() + [ReplyHit("r", true, false)] + [Receive(0)] + [CleanUp(0)] + [Settle(0)] }

  lemma HeardUnanswered()
    ensures Run(Asked() + [ReplyHit("r", true, false)])
      == Alone(Card(Waiting, Pending, Some(true), [true], 0, true), true, Removing(0), map[])
  {
    AskedIs();
    var t := Alone(Card(Waiting, Pending, Some(true), [true], 0, true), true, Removing(0), map[]);
    assert [] + [true] == [true];
    assert Step(AskedState(), ReplyHit("r", true, false)) == t;
    Next(Asked(), ReplyHit("r", true, false), AskedState(), t);
  }

  /** A waiter returns approved, and nothing but Pending is on record. */
  lemma ApprovedUnrecorded()
    ensures At(Run(Unanswered()), 0, Returned(true)) && Run(Unanswered()).requests[0].row == Pending
  {
    HeardUnanswered();
    var es := Asked() + [ReplyHit("r", true, false)];
    var s1 := Alone(Card(Waiting, Pending, Some(true), [true], 0, true), true, Removing(0), map[]);
    var s2 := s1.(requests := [s1.requests[0].(stage := Ended(Some(true)), read := 1)]);
    assert Step(s1, Receive(0)) == s2;
    Next(es, Receive(0), s1, s2);
    var s3 := Alone(s2.requests[0].(stage := Cleaned(Some(true))), false, Removing(0), map[]);
    assert Step(s2, CleanUp(0)) == s3;
    Next(es + [Receive(0)], CleanUp(0), s2, s3);
    RunSplits(es + [Receive(0)] + [CleanUp(0)], Settle(0));
    hide Run, Asked;
  }

  /** The wait is over, a reply is heard before the card is taken out, and the
      journal answers only one of the two, the reply or the expiry. */
  function Late(first: bool): seq<Event> {
    Asked() + [Timeout(0)] + [ReplyHit("r", true, first)] + [WatcherRemove] + [WatcherPublish] + [CleanUp(0)]
    + [ExpireDecide(0, !first)] + [ExpireNotice(0)]
  }

  function RowOf(first: bool): Row { if first then Decided(Approved) else Pending }

  lemma LateReplied(first: bool)
    ensures Run(Asked() + [Timeout(0)]) == Alone(Card(Ended(None), Pending, None, [], 0, false), true, Idle, map[])
    ensures Run(Asked() + [Timeout(0)] + [ReplyHit("r", true, first)])
      == Alone(Card(Ended(None), RowOf(first), Some(true), [true], 0, !first), true, Removing(0), map[])
  {
    AskedIs();
    var s := Alone(Card(Ended(None), Pending, None, [], 0, false), true, Idle, map[]);
    assert Step(AskedState(), Timeout(0)) == s;
    Next(Asked(), Timeout(0), AskedState(), s);
    var t := Alone(Card(Ended(None), RowOf(first), Some(true), [true], 0, !first), true, Removing(0), map[]);
    assert [] + [true] == [true];
    assert Step(s, ReplyHit("r", true, first)) == t;
    Next(Asked() + [Timeout(0)], ReplyHit("r", true, first), s, t);
  }

  lemma LatePublished(first: bool)
    ensures Run(Asked() + [Timeout(0)] + [ReplyHit("r", true, first)] + [WatcherRemove] + [WatcherPublish])
      == Alone(Card(Ended(None), RowOf(first), Some(true), [true], 1, !first), false, Idle, map[])
  {
    LateReplied(first);
    hide Run, Asked;
    var es := Asked() + [Timeout(0)] + [ReplyHit("r", true, first)];
    var s1 := Alone(Card(Ended(None), RowOf(first), Some(true), [true], 0, !first), true, Removing(0), map[]);
    var s2 := Alone(s1.requests[0], false, Publishing(0), map[]);
    assert Step(s1, WatcherRemove) == s2;
    Next(es, WatcherRemove, s1, s2);
    var s3 := Alone(Card(Ended(None), RowOf(first), Some(true), [true], 1, !first), false, Idle, map[]);
    assert Step(s2, WatcherPublish) == s3;
    Next(es + [WatcherRemove], WatcherPublish, s2, s3);
  }

  /** Two notices, and the waiter returns denied although an approving reply was
      heard. */
  lemma LateEnds(first: bool)
    ensures At(Run(Late(first)), 0, Returned(false))
    ensures Run(Late(first)).requests[0].notices == 2 && Run(Late(first)).requests[0].hit == Some(true)
  {
    LatePublished(first);
    hide Run, Asked;
    var es := Asked() + [Timeout(0)] + [ReplyHit("r", true, first)] + [WatcherRemove] + [WatcherPublish];
    var s3 := Alone(Card(Ended(None), RowOf(first), Some(true), [true], 1, !first), false, Idle, map[]);
    var s4 := Alone(s3.requests[0].(stage := Cleaned(None)), false, Idle, map[]);
    assert Step(s3, CleanUp(0)) == s4;
    Next(es, CleanUp(0), s3, s4);
    var row := if first then Decided(Approved) else Decided(Expired);
    var s5 := Alone(Card(TimedOut, row, Some(true), [true], 1, true), false, Idle, map[]);
    assert Step(s4, ExpireDecide(0, !first)) == s5;
    Next(es + [CleanUp(0)], ExpireDecide(0, !first), s4, s5);
    RunSplits(es + [CleanUp(0)] + [ExpireDecide(0, !first)], ExpireNotice(0));
  }

  lemma LateWins()
    ensures WinsAt(Late(true), 3, 0, true)
  {
    LateReplied(true);
    var es := Asked() + [Timeout(0)];
    assert Late(true)[..3] == es && Late(true)[3] == ReplyHit("r", true, true);
    hide Run;
    assert Wins(Alone(Card(Ended(None), Pending, None, [], 0, false), true, Idle, map[]), ReplyHit("r", true, true), 0,
      true);
  }

  /** The reply wins, the emergency stop drains the table before the card is taken
      out, and the journal does not answer the cleaner. */
  function Closed(): seq<Event> {
    Asked() + [ReplyHit("r", true, true)] + [Drain] + [CloseDecide(0, false)] + [CloseSend(0)] + [CloseNotice(0)]
    + [WatcherRemove] + [WatcherPublish]
  }

  lemma ClosedUnanswered()
    ensures Run(Asked() + [ReplyHit("r", true, true)] + [Drain] + [CloseDecide(0, false)])
      == Alone(Card(Waiting, Decided(Approved), Some(true), [true], 0, true), false, Removing(0), map[0 := Won])
  {
    AskedIs();
    hide Run, Asked;
    var s1 := Alone(Card(Waiting, Decided(Approved), Some(true), [true], 0, false), true, Removing(0), map[]);
    assert [] + [true] == [true];
    assert Step(AskedState(), ReplyHit("r", true, true)) == s1;
    Next(Asked(), ReplyHit("r", true, true), AskedState(), s1);
    var s2 := Alone(s1.requests[0], false, Removing(0), map[0 := Drained]);
    DrainsOne(s1);
    Next(Asked() + [ReplyHit("r", true, true)], Drain, s1, s2);
    var s3 := Alone(Card(Waiting, Decided(Approved), Some(true), [true], 0, true), false, Removing(0), map[0 := Won]);
    assert Step(s2, CloseDecide(0, false)) == s3;
    Next(Asked() + [ReplyHit("r", true, true)] + [Drain], CloseDecide(0, false), s2, s3);
  }

  lemma DrainsOne(s: State)
    requires s.table == Table(map["r" := 0]) && s.closing == map[]
    ensures Step(s, Drain) == s.(table := Table(map[]), closing := map[0 := Drained])
  {
    assert s.table.pending["r"] == 0;
    assert s.table.Cards() == {0};
  }

  lemma ClosedTwice()
    ensures |Run(Closed()).requests| == 1 && Run(Closed()).requests[0].notices == 2
  {
    ClosedUnanswered();
    hide Run, Asked;
    var es := Asked() + [ReplyHit("r", true, true)] + [Drain] + [CloseDecide(0, false)];
    var s3 := Alone(Card(Waiting, Decided(Approved), Some(true), [true], 0, true), false, Removing(0), map[0 := Won]);
    var r := Card(Waiting, Decided(Approved), Some(true), [true, false], 0, true);
    var s4 := Alone(r, false, Removing(0), map[0 := Sent]);
    assert [true] + [false] == [true, false];
    assert Step(s3, CloseSend(0)) == s4;
    Next(es, CloseSend(0), s3, s4);
    var s5 := Alone(r.(notices := 1), false, Removing(0), map[]);
    assert Step(s4, CloseNotice(0)) == s5;
    Next(es + [CloseSend(0)], CloseNotice(0), s4, s5);
    var s6 := Alone(r.(notices := 1), false, Publishing(0), map[]);
    assert Step(s5, WatcherRemove) == s6;
    Next(es + [CloseSend(0)] + [CloseNotice(0)], WatcherRemove, s5, s6);
    RunSplits(es + [CloseSend(0)] + [CloseNotice(0)] + [WatcherRemove], WatcherPublish);
  }

  // ----- Which callers have to be answered -----

  /** Only calls of these callers go unanswered. */
  ghost predicate OnlyFail(es: seq<Event>, ks: set<Caller>) {
    forall k :: 0 <= k < |es| && CallerOf(es[k]).Some? && !es[k].answers ==> CallerOf(es[k]).value in ks
  }

  lemma OthersAnswer(es: seq<Event>, ks: set<Caller>, n: nat, c: Caller)
    requires OnlyFail(es, ks) && c !in ks
    ensures Answers(es, n, c)
  {
    hide Run;
  }

  lemma RunsFail()
    ensures OnlyFail(Unanswered(), {Reply}) && OnlyFail(Late(false), {Reply})
    ensures OnlyFail(Late(true), {Expiry}) && OnlyFail(Closed(), {Closing})
  {
  }

  lemma FailMore(es: seq<Event>, ks: set<Caller>, ls: set<Caller>)
    requires OnlyFail(es, ks) && ks <= ls
    ensures OnlyFail(es, ls)
  {
  }

  ghost predicate ApprovedMeansRecorded(ks: set<Caller>) {
    forall es, n: nat :: OnlyFail(es, ks) && At(Run(es), n, Returned(true)) ==>
      Run(es).requests[n].row == Decided(Approved)
  }

  /** Approved returned implies Approved on record, in every run in which only calls
      of `ks` go unanswered, if and only if the replies are not among them. */
  lemma RecordedIff(ks: set<Caller>)
    ensures ApprovedMeansRecorded(ks) <==> Reply !in ks
  {
    if Reply in ks {
      ApprovedUnrecorded();
      RunsFail();
      FailMore(Unanswered(), {Reply}, ks);
      hide Run, OnlyFail, Unanswered;
    } else {
      forall es, n: nat | OnlyFail(es, ks) && At(Run(es), n, Returned(true))
        ensures Run(es).requests[n].row == Decided(Approved)
      {
        OthersAnswer(es, ks, n, Reply);
        ApprovedIffReplyWon(es, n, true);
      }
    }
  }

  ghost predicate WinnersAreReturned(ks: set<Caller>) {
    forall es, k: nat, n: nat, approve, v ::
      OnlyFail(es, ks) && WinsAt(es, k, n, approve) && At(Run(es), n, Returned(v)) ==> v == approve
  }

  /** What wins the journal is what is returned, if and only if the expiry is
      answered. */
  lemma WinnersIff(ks: set<Caller>)
    ensures WinnersAreReturned(ks) <==> Expiry !in ks
  {
    if Expiry in ks {
      LateEnds(true);
      LateWins();
      RunsFail();
      FailMore(Late(true), {Expiry}, ks);
      hide Run, OnlyFail, Late, WinsAt;
    } else {
      forall es, k: nat, n: nat, approve, v | OnlyFail(es, ks) && WinsAt(es, k, n, approve)
        && At(Run(es), n, Returned(v))
        ensures v == approve
      {
        OthersAnswer(es, ks, n, Expiry);
        WinningReplyIsReturned(es, k, n, approve, v);
      }
    }
  }

  ghost predicate ReturnedIsHeard(ks: set<Caller>) {
    forall es, n: nat, v :: OnlyFail(es, ks) && At(Run(es), n, Returned(v)) ==>
      (v <==> Run(es).requests[n].hit == Some(true))
  }

  /** A waiter returns approved exactly when an approving reply was heard, if and
      only if replies and expiry are answered. */
  lemma HeardIff(ks: set<Caller>)
    ensures ReturnedIsHeard(ks) <==> Reply !in ks && Expiry !in ks
  {
    if Reply in ks || Expiry in ks {
      var first := Reply !in ks;
      LateEnds(first);
      RunsFail();
      FailMore(Late(first), if first then {Expiry} else {Reply}, ks);
      hide Run, OnlyFail, Late;
      assert OnlyFail(Late(first), ks) && At(Run(Late(first)), 0, Returned(false));
    } else {
      forall es, n: nat, v | OnlyFail(es, ks) && At(Run(es), n, Returned(v))
        ensures v <==> Run(es).requests[n].hit == Some(true)
      {
        OthersAnswer(es, ks, n, Reply);
        OthersAnswer(es, ks, n, Expiry);
        ApprovedIffReplyWon(es, n, v);
      }
    }
  }

  ghost predicate OneNotice(ks: set<Caller>) {
    forall es, n: nat :: OnlyFail(es, ks) && n < |Run(es).requests| ==> Run(es).requests[n].notices <= 1
  }

  /** At most one outcome notice per request, if and only if all but the stale
      replies are answered. */
  lemma OneNoticeIff(ks: set<Caller>)
    ensures OneNotice(ks) <==> Reply !in ks && Expiry !in ks && Closing !in ks
  {
    if Closing in ks {
      ClosedTwice();
      RunsFail();
      FailMore(Closed(), {Closing}, ks);
      hide Run, OnlyFail, Closed;
      assert OnlyFail(Closed(), ks) && 0 < |Run(Closed()).requests|;
    } else if Reply in ks || Expiry in ks {
      var first := Reply !in ks;
      LateEnds(first);
      RunsFail();
      FailMore(Late(first), if first then {Expiry} else {Reply}, ks);
      hide Run, OnlyFail, Late;
      assert OnlyFail(Late(first), ks) && 0 < |Run(Late(first)).requests|;
    } else {
      forall es, n: nat | OnlyFail(es, ks) && n < |Run(es).requests| ensures Run(es).requests[n].notices <= 1 {
        OthersAnswer(es, ks, n, Reply);
        OthersAnswer(es, ks, n, Expiry);
        OthersAnswer(es, ks, n, Closing);
        AtMostOneNotice(es, n);
      }
    }
  }

  // ----- What a waiter is told -----

  /** Event `e` tells the waiter of request `n`, which still listens, `v`: a reply that
      the journal does not turn down, or the cleaner, which always says no. */
  predicate Tells(s: State, e: Event, n: nat, v: bool) {
    && Enabled(s, e) && n < |s.requests| && Listening(s.requests[n].stage)
    && match e
       case ReplyHit(short, approve, answers) =>
         s.table.Card(short) == Some(n) && approve == v && (answers ==> s.requests[n].row.Pending?)
       case CloseSend(m) => m == n && !v
       case _ => false
  }

  ghost predicate Told(es: seq<Event>, n: nat, v: bool) {
    exists k :: 0 <= k < |es| && Tells(Run(es[..k]), es[k], n, v)
  }

  lemma ToldGrows(es: seq<Event>, n: nat, v: bool)
    requires es != []
    ensures var before, e := es[..|es| - 1], es[|es| - 1];
      Told(es, n, v) <==> Told(before, n, v) || Tells(Run(before), e, n, v)
  {
    hide Run, Tells;
    var last := |es| - 1;
    var before := es[..last];
    assert forall k :: 0 <= k < last ==> before[..k] == es[..k] && before[k] == es[k];
    if Told(before, n, v) {
      var k :| 0 <= k < last && Tells(Run(before[..k]), before[k], n, v);
      assert Tells(Run(es[..k]), es[k], n, v);
    }
  }

  predicate Got(s: State, n: nat, v: bool) { n < |s.requests| && v in s.requests[n].got }

  lemma StepGot(s: State, e: Event, n: nat, v: bool)
    requires Enabled(s, e)
    ensures Got(Apply(s, e), n, v) <==> Got(s, n, v) || Tells(s, e, n, v)
  {
    hide ShortId;
    if n < |s.requests| && About(s, e) != Some(n) {
      Others(s, e, n);
      hide Apply;
    }
  }

  lemma {:induction false} GotIsTold(es: seq<Event>, n: nat, v: bool)
    ensures Got(Run(es), n, v) <==> Told(es, n, v)
  {
    hide Apply, Enabled, Told;
    if es == [] {
      NothingTold(n, v);
    } else {
      var before, e := es[..|es| - 1], es[|es| - 1];
      GotIsTold(before, n, v);
      ToldGrows(es, n, v);
      if Enabled(Run(before), e) {
        StepGot(Run(before), e, n, v);
      } else {
        NothingNew(Run(before), e, n, v);
      }
    }
  }

  lemma NothingTold(n: nat, v: bool)
    ensures !Told([], n, v)
  {
  }

  lemma NothingNew(s: State, e: Event, n: nat, v: bool)
    requires !Enabled(s, e)
    ensures !Tells(s, e, n, v)
  {
  }

  /** Where the journal answers replies and expiry of a request, its waiter returns
      approved exactly when it was told so while it listened. */
  lemma ReturnsWhatItWasTold(es: seq<Event>, n: nat, v: bool)
    requires At(Run(es), n, Returned(v))
    ensures Answers(es, n, Reply) && Answers(es, n, Expiry) ==> (v <==> Told(es, n, true))
  {
    ApprovedIffReplyWon(es, n, v);
    RequestIsOk(es, n);
    GotIsTold(es, n, true);
    if Answers(es, n, Reply) && Answers(es, n, Expiry) {
      RunHeard(es, n);
    }
    hide Run, Answers, Told;
  }

  // ----- The first answer decides -----

  /** The decision that a caller asks the journal to record. */
  function Asks(s: State, e: Event): Decision
    requires CallerOf(e).Some?
  {
    match e
    case ReplyHit(_, approve, _) => Verdict(approve)
    case StaleDecide(_) => if s.watcher.StaleFound? then Verdict(s.watcher.approve) else Denied
    case ExpireDecide(_, _) => Expired
    case CloseDecide(_, _) => Orphaned
  }

  /** Event `e` is an answered call about request `n`, whose row is still pending. */
  predicate FirstAnswered(s: State, e: Event, n: nat) {
    && Enabled(s, e) && CallerOf(e).Some? && e.answers && About(s, e) == Some(n)
    && n < |s.requests| && s.requests[n].row.Pending?
  }

  lemma FirstIsRecorded(s: State, e: Event, n: nat)
    requires FirstAnswered(s, e, n)
    ensures n < |Apply(s, e).requests| && Apply(s, e).requests[n].row == Decided(Asks(s, e))
  {
    hide ShortId;
  }

  /** The first caller that the journal answers on a pending request decides it, for
      good: the reply, the stale reply, the expiry or the closing. */
  lemma FirstAnswerDecides(es: seq<Event>, e: Event, more: seq<Event>, n: nat)
    requires FirstAnswered(Run(es), e, n)
    ensures n < |Run(es + [e] + more).requests|
    ensures Run(es + [e] + more).requests[n].row == Decided(Asks(Run(es), e))
  {
    FirstIsRecorded(Run(es), e, n);
    RunSplits(es, e);
    FactsStay(es + [e], more, n);
    hide Run;
  }

  /** An orphaned request whose waiter still listens: it has been told no, or the
      cleaner is about to. */
  ghost predicate OrphanOk(s: State, n: nat)
    requires n < |s.requests|
  {
    s.requests[n].row == Decided(Orphaned) && Listening(s.requests[n].stage) ==>
      false in s.requests[n].got || (n in s.closing && s.closing[n].Won?)
  }

  lemma WaiterOrphan(s: State, e: Event, n: nat)
    requires Enabled(s, e) && OfWaiter(e) && e.n == n && n < |s.requests| && OrphanOk(s, n)
    ensures n < |Apply(s, e).requests| && OrphanOk(Apply(s, e), n)
  {
  }

  lemma CleanerOrphan(s: State, e: Event, n: nat)
    requires Enabled(s, e) && OfCleaner(e) && e.n == n && n < |s.requests| && OrphanOk(s, n)
    ensures n < |Apply(s, e).requests| && OrphanOk(Apply(s, e), n)
  {
  }

  lemma OtherOrphan(s: State, e: Event, n: nat)
    requires Enabled(s, e) && !OfWaiter(e) && !OfCleaner(e) && n < |Apply(s, e).requests|
    requires n < |s.requests| ==> OrphanOk(s, n)
    ensures OrphanOk(Apply(s, e), n)
  {
    hide ShortId;
  }

  /** The cleaner's list of another request is left alone. */
  lemma ClosingApart(s: State, e: Event, n: nat)
    requires Enabled(s, e) && (OfWaiter(e) || OfCleaner(e)) && e.n != n
    ensures n in Apply(s, e).closing <==> n in s.closing
    ensures n in s.closing ==> Apply(s, e).closing[n] == s.closing[n]
  {
  }

  lemma StepOrphan(s: State, e: Event, n: nat)
    requires Enabled(s, e) && n < |Apply(s, e).requests| && (n < |s.requests| ==> OrphanOk(s, n))
    ensures OrphanOk(Apply(s, e), n)
  {
    if !OfWaiter(e) && !OfCleaner(e) {
      OtherOrphan(s, e, n);
    } else if n < |s.requests| && e.n == n {
      hide Apply, Enabled, OrphanOk;
      if OfWaiter(e) {
        WaiterOrphan(s, e, n);
      } else {
        CleanerOrphan(s, e, n);
      }
    } else {
      SameRequests(s, e);
      ClosingApart(s, e, n);
      Others(s, e, n);
      hide Apply, Enabled;
    }
  }

  lemma SameRequests(s: State, e: Event)
    requires Enabled(s, e) && (OfWaiter(e) || OfCleaner(e))
    ensures |Apply(s, e).requests| == |s.requests|
  {
  }

  /** What the closing decided reaches the waiter: when the cleaner is through with a
      request that it decided, a waiter that still listens has been told no. */
  lemma {:induction false} OrphanIsTold(es: seq<Event>, n: nat)
    requires n < |Run(es).requests|
    ensures OrphanOk(Run(es), n)
  {
    hide Apply, Enabled, OrphanOk;
    if es != [] {
      var before, e := es[..|es| - 1], es[|es| - 1];
      if n < |Run(before).requests| {
        OrphanIsTold(before, n);
      }
      if Enabled(Run(before), e) {
        StepOrphan(Run(before), e, n);
      }
    }
  }
}
