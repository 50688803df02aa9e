/** What a request over the bridge returns, and when it has to. */
module BridgeRpcOutcome {
  import opened Wrappers
  import opened BridgeRpc

  /** What can happen to a request. */
  datatype Fact =
    | SendFails
    | Elapses
    | Answered(w: Wire)
    | SessionEnds

  /** Event `e` makes that happen to request `n`: an answer counts when the table
      has the request under the answer's id, the end of the session when the table
      has the request at all. */
  predicate Makes(s: State, e: Event, n: nat, f: Fact) {
    && Enabled(s, e)
    && match f
       case SendFails => e == Send(n, false)
       case Elapses => e == Timeout(n)
       case Answered(w) => e == Deliver(w) && s.table.Waiter(w.id) == Some(n)
       case SessionEnds => e == Clear && n in s.table.pending.Values
  }

  ghost predicate Happened(es: seq<Event>, n: nat, f: Fact) {
    exists k :: 0 <= k < |es| && Makes(Run(es[..k]), es[k], n, f)
  }

  /** How it shows in the state. */
  predicate Shows(s: State, n: nat, f: Fact) {
    && n < |s.calls|
    && var c := s.calls[n];
       match f
       case SendFails => c.stage.Unsent? || c.stage == Returned(LinkUnreachable)
       case Elapses => c.stage.Elapsed? || c.stage == Returned(TimedOut)
       case Answered(w) => c.slot == Filled(w)
       case SessionEnds => c.slot == Closed
  }

  lemma HappenedStep(es: seq<Event>, n: nat, f: Fact)
    requires es != []
    ensures var before, e := es[..|es| - 1], es[|es| - 1];
      Happened(es, n, f) <==> Happened(before, n, f) || Makes(Run(before), e, n, f)
  {
    hide Run, Makes;
    var last := |es| - 1;
    var before := es[..last];
    assert forall k :: 0 <= k < last ==> before[..k] == es[..k] && before[k] == es[k];
    if Happened(before, n, f) {
      var k :| 0 <= k < last && Makes(Run(before[..k]), before[k], n, f);
      assert Makes(Run(es[..k]), es[k], n, f);
    }
  }

  lemma StepShows(s: State, e: Event, n: nat, f: Fact)
    requires Inv(s) && Enabled(s, e) && !(n < |Apply(s, e).calls| && Apply(s, e).calls[n].stage.Abandoned?)
    ensures Shows(Apply(s, e), n, f) <==> Shows(s, n, f) || Makes(s, e, n, f)
  {
    assert e.Deliver? && e.w.id in s.table.pending ==> EntryOk(s, e.w.id);
    assert n < |s.calls| ==> CallOk(s, n);
    if e.Clear? && n in s.table.pending.Values {
      var id :| id in s.table.pending && s.table.pending[id] == n;
      assert EntryOk(s, id);
    }
  }

  lemma {:induction false} ShowsIff(es: seq<Event>, n: nat, f: Fact)
    requires !(n < |Run(es).calls| && Run(es).calls[n].stage.Abandoned?)
    ensures Happened(es, n, f) <==> Shows(Run(es), n, f)
  {
    hide Apply, Enabled, Makes, Happened;
    if es == [] {
      NothingYet(n, f);
    } else {
      var before, e := es[..|es| - 1], es[|es| - 1];
      HappenedStep(es, n, f);
      AbandonedStays(Run(before), e, n);
      ShowsIff(before, n, f);
      RunKeepsInv(before);
      if Enabled(Run(before), e) {
        StepShows(Run(before), e, n, f);
      } else {
        NothingMade(Run(before), e, n, f);
      }
    }
  }

  lemma NothingYet(n: nat, f: Fact)
    ensures !Happened([], n, f)
  {
  }

  lemma NothingMade(s: State, e: Event, n: nat, f: Fact)
    requires !Enabled(s, e)
    ensures !Makes(s, e, n, f)
  {
  }

  lemma AbandonedStays(s: State, e: Event, n: nat)
    ensures n < |s.calls| && s.calls[n].stage.Abandoned? ==>
      n < |Step(s, e).calls| && Step(s, e).calls[n].stage.Abandoned?
  {
  }

  /** A request that has returned says what happened to it: unreachable exactly when
      the send failed; timed out exactly when the wait ran out; otherwise the answer
      that came while the table had the request, exactly when one came, and a dead
      link exactly when the session ended first. */
  lemma ResultIff(es: seq<Event>, n: nat)
    requires n < |Run(es).calls| && Run(es).calls[n].stage.Returned?
    ensures var result := Run(es).calls[n].stage.result;
      var reached := !Happened(es, n, SendFails) && !Happened(es, n, Elapses);
      && (result == LinkUnreachable <==> Happened(es, n, SendFails))
      && (result == TimedOut <==> Happened(es, n, Elapses))
      && (forall w :: result == Frame(w) <==> Happened(es, n, Answered(w)) && reached)
      && (result == LinkDead <==> Happened(es, n, SessionEnds) && reached)
  {
    RunKeepsInv(es);
    assert CallOk(Run(es), n);
    ShowsIff(es, n, SendFails);
    ShowsIff(es, n, Elapses);
    ShowsIff(es, n, SessionEnds);
    forall w ensures Happened(es, n, Answered(w)) <==> Shows(Run(es), n, Answered(w)) {
      ShowsIff(es, n, Answered(w));
    }
    hide Run, Happened;
  }

  /** In particular an answer is not lost: once it has found the request in the table,
      the request returns it, unless its send failed or its wait had run out. */
  lemma AnswerIsReturned(es: seq<Event>, k: nat, n: nat, w: Wire)
    requires k < |es| && es[k] == Deliver(w) && IsResponse(w) && Run(es[..k]).table.Waiter(w.id) == Some(n)
    requires n < |Run(es).calls| && Run(es).calls[n].stage.Returned?
    ensures var result := Run(es).calls[n].stage.result;
      && (result == Frame(w) || result == TimedOut || result == LinkUnreachable)
      && (result == TimedOut ==> exists j :: 0 <= j < |es| && es[j] == Timeout(n) && Enabled(Run(es[..j]), es[j]))
      && (result == LinkUnreachable ==>
          exists j :: 0 <= j < |es| && es[j] == Send(n, false) && Enabled(Run(es[..j]), es[j]))
  {
    RunKeepsInv(es[..k]);
    assert EntryOk(Run(es[..k]), w.id);
    assert Makes(Run(es[..k]), es[k], n, Answered(w));
    ResultIff(es, n);
    hide Run;
    var result := Run(es).calls[n].stage.result;
    if result == TimedOut {
      var j :| 0 <= j < |es| && Makes(Run(es[..j]), es[j], n, Elapses);
    }
    if result == LinkUnreachable {
      var j :| 0 <= j < |es| && Makes(Run(es[..j]), es[j], n, SendFails);
    }
  }
}
