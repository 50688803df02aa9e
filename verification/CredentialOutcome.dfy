/** When a credential is stored although its waiter was denied: exactly when the
    waiter gave up its grace wait and the write then succeeded. */
module CredentialOutcome {
  import opened Wrappers
  import opened CredentialBroker

  /** No two requests have the same id. */
  ghost predicate Distinct(s: State) {
    forall i, j :: 0 <= i < j < |s.waiters| ==> s.waiters[i].id != s.waiters[j].id
  }

  /** The card is out of everybody's reach and has not been written. */
  ghost predicate Out(s: State, w: nat) {
    && w < |s.waiters| && w !in s.vault && !OnTable(s, w) && !s.waiters[w].stage.Ready?
    && forall r :: !Holds(s, r, w)
  }

  /** A card that has been written is in no place it could be denied from. */
  ghost predicate WrittenOk(s: State, w: nat)
    requires w < |s.waiters|
  {
    w in s.vault ==>
      && !OnTable(s, w) && w !in s.closing && !s.waiters[w].stage.Ready?
      && forall r :: Holds(s, r, w) ==> s.responders[r].Persisted?
  }

  ghost predicate DeniedOk(s: State, w: nat)
    requires w < |s.waiters|
  {
    Denied in s.waiters[w].got ==> Out(s, w)
  }

  ghost predicate Settled(s: State) {
    && (forall w :: w in s.vault ==> w < |s.waiters|)
    && (forall w :: 0 <= w < |s.waiters| ==> WrittenOk(s, w) && DeniedOk(s, w))
  }

  /** Whoever is in hand or in the table. */
  lemma HandsAre(s: State, e: Event, w: nat)
    requires Inv(s) && Enabled(s, e) && w < |s.waiters|
    ensures e.Take? && s.table.pending[e.id] == w ==> OnTable(s, w)
    ensures e.CloseDrain? && w in s.table.pending.Values ==> OnTable(s, w)
    ensures w in s.closing ==> !OnTable(s, w) && !s.waiters[w].stage.Ready? && forall r :: !Holds(s, r, w)
    ensures OnTable(s, w) ==> !s.waiters[w].stage.Ready? && forall r :: !Holds(s, r, w)
    ensures forall r :: Holds(s, r, w) ==> !s.waiters[w].stage.Ready? && forall q :: Holds(s, q, w) ==> q == r
  {
    if e.Take? {
      assert CardOk(s, e.id);
    }
    if e.CloseDrain? && w in s.table.pending.Values {
      var id :| id in s.table.pending && s.table.pending[id] == w;
      assert CardOk(s, id);
    }
    assert w in s.closing ==> ClosingOk(s, w);
    assert OnTable(s, w) ==> CardOk(s, s.waiters[w].id);
    forall r | Holds(s, r, w)
      ensures !OnTable(s, w) && w !in s.closing && !s.waiters[w].stage.Ready? && forall q :: Holds(s, q, w) ==> q == r
    {
      assert HeldOk(s, r);
    }
  }

  lemma StepOut(s: State, e: Event, w: nat)
    requires Inv(s) && Enabled(s, e) && Out(s, w)
    ensures Out(Apply(s, e), w)
  {
    HandsAre(s, e, w);
    AboutOk(s, e);
    var t := Apply(s, e);
    hide Inv, CardOk, HeldOk, ClosingOk, WaiterOk;
    if ByWhom(e).Some? {
      assert !Holds(s, ByWhom(e).value, w);
    }
    forall r ensures !Holds(t, r, w) {
      assert !Holds(s, r, w);
    }
  }

  lemma StepWritten(s: State, e: Event, w: nat)
    requires Inv(s) && Enabled(s, e) && w < |s.waiters| && WrittenOk(s, w)
    ensures w < |Apply(s, e).waiters| && WrittenOk(Apply(s, e), w)
  {
    HandsAre(s, e, w);
    AboutOk(s, e);
    var t := Apply(s, e);
    hide Inv, CardOk, HeldOk, ClosingOk, WaiterOk;
    if e.PersistOk? && s.responders[e.r].w == w {
      assert Holds(s, e.r, w);
    }
    forall r | w in t.vault && Holds(t, r, w) ensures t.responders[r].Persisted? {
      assert Holds(s, r, w);
    }
  }

  lemma StepDenied(s: State, e: Event, w: nat)
    requires Inv(s) && Enabled(s, e) && w < |s.waiters| && WrittenOk(s, w) && DeniedOk(s, w)
    ensures w < |Apply(s, e).waiters| && DeniedOk(Apply(s, e), w)
  {
    HandsAre(s, e, w);
    AboutOk(s, e);
    hide Inv, CardOk, HeldOk, ClosingOk, WaiterOk;
    if Denied in s.waiters[w].got {
      StepOut(s, e, w);
      hide *;
    } else if e.CloseSend? && e.w == w {
      assert Out(s, w);
      StepOut(s, e, w);
      hide *;
    }
  }

  // ----- Runs -----

  lemma StepWaiters(s: State, e: Event)
    ensures |s.waiters| <= |Step(s, e).waiters| && forall i :: 0 <= i < |s.waiters| ==>
      Step(s, e).waiters[i].id == s.waiters[i].id
  {
  }

  lemma StepSettled(s: State, e: Event)
    requires Inv(s) && Settled(s) && Enabled(s, e)
    ensures Settled(Apply(s, e))
  {
    var t := Apply(s, e);
    AboutOk(s, e);
    StepWaiters(s, e);
    assert forall w :: w in t.vault ==> w < |t.waiters|
      by { hide Inv, CardOk, ClosingOk, WaiterOk, WrittenOk, DeniedOk; }
    forall w | 0 <= w < |t.waiters| ensures WrittenOk(t, w) && DeniedOk(t, w) {
      if w < |s.waiters| {
        hide WrittenOk, DeniedOk, Inv, Apply;
        StepWritten(s, e, w);
        StepDenied(s, e, w);
      } else {
        NewIsClean(s, e);
        hide Apply, Inv;
      }
    }
  }

  /** A new waiter has been sent nothing, and nothing was written for it. */
  lemma NewIsClean(s: State, e: Event)
    requires Enabled(s, e) && |Apply(s, e).waiters| > |s.waiters|
    ensures |Apply(s, e).waiters| == |s.waiters| + 1 && Apply(s, e).waiters[|s.waiters|].got == []
      && Apply(s, e).vault == s.vault
  {
  }

  lemma {:induction false} RunSettled(es: seq<Event>)
    ensures Settled(Run(es))
  {
    hide Apply, Enabled, Inv;
    if es != [] {
      var before, e := es[..|es| - 1], es[|es| - 1];
      RunSettled(before);
      RunKeepsInv(before);
      hide Settled;
      if Enabled(Run(before), e) {
        StepSettled(Run(before), e);
      }
    }
  }

  // ----- How a waiter came to be denied -----

  /** The waiter gave up its grace wait. */
  ghost predicate GaveUp(es: seq<Event>, w: nat) {
    exists k :: 0 <= k < |es| && es[k] == GraceOver(w) && Enabled(Run(es[..k]), es[k])
  }

  /** A responder that had taken the waiter's card wrote the credential. */
  ghost predicate Wrote(es: seq<Event>, w: nat) {
    exists k :: 0 <= k < |es| && es[k].PersistOk? && Enabled(Run(es[..k]), es[k])
      && Run(es[..k]).responders[es[k].r].w == w
  }

  predicate DeniedAt(s: State, w: nat) { At(s, w, Leaving(Denied)) || At(s, w, Gone(Some(Denied))) }

  lemma GaveUpGrows(es: seq<Event>, w: nat)
    requires es != []
    ensures var before, e := es[..|es| - 1], es[|es| - 1];
      GaveUp(es, w) <==> (GaveUp(before, w) || (e == GraceOver(w) && Enabled(Run(before), e)))
  {
    hide Run, Enabled;
    var last := |es| - 1;
    var before := es[..last];
    assert forall k :: 0 <= k < last ==> before[..k] == es[..k] && before[k] == es[k];
  }

  lemma WroteGrows(es: seq<Event>, w: nat)
    requires es != []
    ensures var before, e := es[..|es| - 1], es[|es| - 1];
      Wrote(es, w) <==> (Wrote(before, w)
        || (e.PersistOk? && Enabled(Run(before), e) && Run(before).responders[e.r].w == w))
  {
    hide Run;
    var last := |es| - 1;
    var before := es[..last];
    assert forall k :: 0 <= k < last ==> before[..k] == es[..k] && before[k] == es[k];
    hide Enabled;
  }

  lemma {:induction false} VaultIsWrote(es: seq<Event>, w: nat)
    ensures w in Run(es).vault <==> Wrote(es, w)
  {
    hide Wrote;
    if es == [] {
      NothingWritten(w);
    } else {
      VaultIsWrote(es[..|es| - 1], w);
      WroteGrows(es, w);
    }
  }

  lemma NothingWritten(w: nat)
    ensures !Wrote([], w)
  {
  }

  /** With distinct ids, a waiter that becomes denied without giving up a grace wait
      has a card that is out of everybody's reach. */
  lemma StepDeniedAt(s: State, e: Event, w: nat)
    requires Inv(s) && Settled(s) && Enabled(s, e) && Distinct(s) && w < |s.waiters|
    requires !DeniedAt(s, w) && DeniedAt(Apply(s, e), w) && e != GraceOver(w)
    ensures Out(Apply(s, e), w)
  {
    assert WrittenOk(s, w) && DeniedOk(s, w) && WaiterOk(s, w);
    HandsAre(s, e, w);
    assert e == TimeoutRemove(w) || e == Receive(w);
    if e.TimeoutRemove? {
      var id := s.waiters[w].id;
      assert id in s.table.pending && CardOk(s, id);
      assert s.table.pending[id] == w;
    } else {
      assert Denied in s.waiters[w].got;
      hide Inv, Settled;
      StepOut(s, e, w);
    }
  }

  lemma {:induction false} DeniedIsOut(es: seq<Event>, w: nat)
    requires Distinct(Run(es)) && DeniedAt(Run(es), w)
    ensures GaveUp(es, w) || Out(Run(es), w)
  {
    hide Apply, Enabled, Inv, Settled, Out, GaveUp;
    assert es != [];
    var before, e := es[..|es| - 1], es[|es| - 1];
    StepWaiters(Run(before), e);
    assert Distinct(Run(before)) by { hide Run, Step; }
    RunKeepsInv(before);
    RunSettled(before);
    GaveUpGrows(es, w);
    if w < |Run(before).waiters| && DeniedAt(Run(before), w) {
      DeniedIsOut(before, w);
      if Enabled(Run(before), e) && Out(Run(before), w) {
        StepOut(Run(before), e, w);
      }
    } else {
      assert Enabled(Run(before), e);
      if w < |Run(before).waiters| && e != GraceOver(w) {
        StepDeniedAt(Run(before), e, w);
      } else if w >= |Run(before).waiters| {
        NewIsReady(Run(before), e, w);
      }
    }
  }

  lemma NewIsReady(s: State, e: Event, w: nat)
    requires Enabled(s, e) && w >= |s.waiters|
    ensures !DeniedAt(Apply(s, e), w)
  {
  }

  lemma {:induction false} OutForGood(es: seq<Event>, more: seq<Event>, w: nat)
    requires Out(Run(es), w)
    ensures Out(Run(es + more), w)
    decreases |more|
  {
    hide Apply, Enabled, Inv, Out;
    if more == [] {
      assert es + more == es;
    } else {
      var before, e := es + more[..|more| - 1], more[|more| - 1];
      OutForGood(es, more[..|more| - 1], w);
      assert es + more == before + [e];
      RunSplits(before, e);
      RunKeepsInv(before);
      if Enabled(Run(before), e) {
        StepOut(Run(before), e, w);
      }
    }
  }

  /** With distinct ids: the credential of a denied waiter is in the vault exactly
      when the waiter gave up its grace wait and the responder that had its card
      wrote it. */
  lemma DeniedIsStoredIff(es: seq<Event>, w: nat)
    requires Distinct(Run(es)) && At(Run(es), w, Gone(Some(Denied)))
    ensures w in Run(es).vault <==> GaveUp(es, w) && Wrote(es, w)
  {
    DeniedIsOut(es, w);
    VaultIsWrote(es, w);
    hide Run, GaveUp, Wrote;
  }

  /** A waiter that was denied by the closing, or by taking its own card out, is
      never stored, whatever comes later. */
  lemma DeniedForGood(es: seq<Event>, more: seq<Event>, w: nat)
    requires Distinct(Run(es)) && At(Run(es), w, Gone(Some(Denied))) && !GaveUp(es, w)
    ensures w !in Run(es + more).vault
  {
    DeniedIsOut(es, w);
    OutForGood(es, more, w);
    hide Run, GaveUp;
  }

  // ----- When it can still be stored -----

  /** A responder has the waiter's card and has not written the credential yet. */
  predicate Writing(s: State, w: nat) { exists r :: r in s.responders && s.responders[r] == Took(w) }

  lemma StepUnwritten(s: State, e: Event, w: nat)
    requires Inv(s) && Enabled(s, e) && w < |s.waiters| && s.waiters[w].stage.Gone?
    requires w !in s.vault && !Writing(s, w)
    ensures w !in Apply(s, e).vault && !Writing(Apply(s, e), w)
  {
    var t := Apply(s, e);
    if e.Take? {
      assert CardOk(s, e.id);
    }
    hide Inv, CardOk;
    if e.PersistOk? {
      assert s.responders[e.r] != Took(w);
    }
    forall r | r in t.responders ensures t.responders[r] != Took(w) {
      assert r in s.responders ==> s.responders[r] != Took(w);
    }
  }

  lemma {:induction false} UnwrittenForGood(es: seq<Event>, more: seq<Event>, w: nat)
    requires w < |Run(es).waiters| && Run(es).waiters[w].stage.Gone? && w !in Run(es).vault && !Writing(Run(es), w)
    ensures w !in Run(es + more).vault && !Writing(Run(es + more), w)
    decreases |more|
  {
    hide Apply, Enabled, Inv, Writing;
    if more == [] {
      assert es + more == es;
    } else {
      var before, e := es + more[..|more| - 1], more[|more| - 1];
      UnwrittenForGood(es, more[..|more| - 1], w);
      GoneForGood(es, more[..|more| - 1], w);
      assert es + more == before + [e];
      RunSplits(before, e);
      RunKeepsInv(before);
      if Enabled(Run(before), e) {
        StepUnwritten(Run(before), e, w);
      }
    }
  }

  /** No continuation of the run stores the waiter's credential. */
  ghost predicate NeverStored(es: seq<Event>, w: nat) { forall more :: w !in Run(es + more).vault }

  /** A waiter that has left, with whatever result and whatever the ids, is never
      stored if and only if it is not stored yet and nobody is still to write its
      credential. */
  lemma NeverStoredIff(es: seq<Event>, w: nat)
    requires w < |Run(es).waiters| && Run(es).waiters[w].stage.Gone?
    ensures NeverStored(es, w) <==> w !in Run(es).vault && !Writing(Run(es), w)
  {
    if w in Run(es).vault {
      assert es + [] == es;
    } else if Writing(Run(es), w) {
      var r :| r in Run(es).responders && Run(es).responders[r] == Took(w);
      RunSplits(es, PersistOk(r));
      hide Run;
      assert w in Run(es + [PersistOk(r)]).vault;
    } else {
      forall more ensures w !in Run(es + more).vault {
        UnwrittenForGood(es, more, w);
      }
    }
  }

  // ----- What a waiter is told -----

  /** Event `e` sends the waiter, which is still there, the decision `o`: a responder
      after its write, or the closing. */
  predicate Tells(s: State, e: Event, w: nat, o: Outcome) {
    && Enabled(s, e) && w < |s.waiters| && !s.waiters[w].stage.Gone?
    && match o
       case Stored => e.SendStored? && s.responders[e.r].w == w
       case Denied => e == CloseSend(w)
  }

  ghost predicate Told(es: seq<Event>, w: nat, o: Outcome) {
    exists k :: 0 <= k < |es| && Tells(Run(es[..k]), es[k], w, o)
  }

  lemma ToldGrows(es: seq<Event>, w: nat, o: Outcome)
    requires es != []
    ensures var before, e := es[..|es| - 1], es[|es| - 1];
      Told(es, w, o) <==> Told(before, w, o) || Tells(Run(before), e, w, o)
  {
    hide Run, Tells;
    var last := |es| - 1;
    var before := es[..last];
    assert forall k :: 0 <= k < last ==> before[..k] == es[..k] && before[k] == es[k];
    if Told(before, w, o) {
      var k :| 0 <= k < last && Tells(Run(before[..k]), before[k], w, o);
      assert Tells(Run(es[..k]), es[k], w, o);
    }
  }

  predicate Got(s: State, w: nat, o: Outcome) { w < |s.waiters| && o in s.waiters[w].got }

  lemma StepGot(s: State, e: Event, w: nat, o: Outcome)
    requires Enabled(s, e)
    ensures Got(Apply(s, e), w, o) <==> Got(s, w, o) || Tells(s, e, w, o)
  {
  }

  /** The decisions in a waiter's channel are those that were sent while it was there. */
  lemma {:induction false} GotIsTold(es: seq<Event>, w: nat, o: Outcome)
    ensures Got(Run(es), w, o) <==> Told(es, w, o)
  {
    hide Apply, Enabled, Told;
    if es == [] {
      NothingTold(w, o);
    } else {
      var before, e := es[..|es| - 1], es[|es| - 1];
      GotIsTold(before, w, o);
      ToldGrows(es, w, o);
      if Enabled(Run(before), e) {
        StepGot(Run(before), e, w, o);
      }
    }
  }

  lemma NothingTold(w: nat, o: Outcome)
    ensures !Told([], w, o)
  {
  }

  // ----- Nobody waits in vain -----

  predicate StillWaits(stage: Stage) { stage.Waiting? || stage.Expired? || stage.Raced? }

  /** Somebody can still decide: the card is in the table, a responder or the closing
      has it; or the waiter has been told. */
  ghost predicate InSomeHand(s: State, w: nat)
    requires w < |s.waiters|
  {
    s.waiters[w].got != [] || OnTable(s, w) || w in s.closing || exists r :: Holds(s, r, w)
  }

  /** A step may take a card into hand, but not drop it. */
  lemma CardIsKept(s: State, e: Event, w: nat)
    requires Inv(s) && Enabled(s, e) && Distinct(Apply(s, e)) && w < |s.waiters| && OnTable(s, w)
    requires StillWaits(Apply(s, e).waiters[w].stage)
    ensures InSomeHand(Apply(s, e), w)
  {
    var t := Apply(s, e);
    AboutOk(s, e);
    HandsAre(s, e, w);
    StepWaiters(s, e);
    hide Inv, HeldOk, ClosingOk, WaiterOk;
    if e.Take? && e.id == s.waiters[w].id {
      assert Holds(t, e.r, w);
    }
    if e.CloseDrain? {
      assert w in s.table.pending.Values;
    }
  }

  lemma HeldIsKept(s: State, e: Event, w: nat, r: nat)
    requires Inv(s) && Enabled(s, e) && w < |s.waiters| && Holds(s, r, w) && StillWaits(Apply(s, e).waiters[w].stage)
    ensures InSomeHand(Apply(s, e), w)
  {
    var t := Apply(s, e);
    AboutOk(s, e);
    assert WaiterOk(s, w);
    hide Inv, HeldOk, ClosingOk;
    if ByWhom(e) != Some(r) || !(e.SendStored? || e.PutBack?) {
      assert Holds(t, r, w);
    }
  }

  lemma ToldIsKept(s: State, e: Event, w: nat)
    requires Enabled(s, e) && w < |s.waiters| && (s.waiters[w].got != [] || w in s.closing)
    requires StillWaits(Apply(s, e).waiters[w].stage)
    ensures InSomeHand(Apply(s, e), w)
  {
  }

  lemma HandedOn(s: State, e: Event, w: nat)
    requires Inv(s) && Enabled(s, e) && Distinct(Apply(s, e)) && w < |s.waiters| && InSomeHand(s, w)
    requires w < |Apply(s, e).waiters| && StillWaits(Apply(s, e).waiters[w].stage)
    ensures InSomeHand(Apply(s, e), w)
  {
    if s.waiters[w].got != [] || w in s.closing {
      ToldIsKept(s, e, w);
    } else if OnTable(s, w) {
      CardIsKept(s, e, w);
    } else {
      var r: nat :| Holds(s, r, w);
      HeldIsKept(s, e, w, r);
    }
    hide Inv, Apply, Enabled, Distinct;
  }

  lemma StartsOnTable(s: State, e: Event, w: nat)
    requires Inv(s) && Enabled(s, e) && w < |Apply(s, e).waiters| && StillWaits(Apply(s, e).waiters[w].stage)
    requires w < |s.waiters| ==> !StillWaits(s.waiters[w].stage)
    ensures InSomeHand(Apply(s, e), w)
  {
    hide Inv;
  }

  /** With distinct ids, a waiter that is still in its wait or its grace wait has a card
      that somebody can decide, or has been told: none is dropped on the way. */
  lemma {:induction false} NobodyWaitsInVain(es: seq<Event>, w: nat)
    requires Distinct(Run(es)) && w < |Run(es).waiters| && StillWaits(Run(es).waiters[w].stage)
    ensures InSomeHand(Run(es), w)
  {
    hide Apply, Enabled, Inv, InSomeHand, StillWaits;
    assert es != [];
    var before, e := es[..|es| - 1], es[|es| - 1];
    StepWaiters(Run(before), e);
    assert Distinct(Run(before)) by { hide Run, Step; }
    RunKeepsInv(before);
    if w < |Run(before).waiters| && StillWaits(Run(before).waiters[w].stage) {
      NobodyWaitsInVain(before, w);
      if Enabled(Run(before), e) {
        HandedOn(Run(before), e, w);
      }
    } else {
      StartsOnTable(Run(before), e, w);
    }
  }

  // ----- What a waiter returns -----

  /** The waiter's thread was dropped. */
  ghost predicate Aborted(es: seq<Event>, w: nat) {
    exists k :: 0 <= k < |es| && es[k] == Abort(w) && Enabled(Run(es[..k]), es[k])
  }

  lemma AbortedGrows(es: seq<Event>, w: nat)
    requires es != []
    ensures var before, e := es[..|es| - 1], es[|es| - 1];
      Aborted(es, w) <==> (Aborted(before, w) || (e == Abort(w) && Enabled(Run(before), e)))
  {
    hide Run, Enabled;
    var last := |es| - 1;
    var before := es[..last];
    assert forall k :: 0 <= k < last ==> before[..k] == es[..k] && before[k] == es[k];
  }

  /** A waiter leaves without a result only by being dropped, and one that gave up
      leaves denied unless it is dropped. */
  lemma {:induction false} HowItLeft(es: seq<Event>, w: nat)
    ensures Aborted(es, w) <==> At(Run(es), w, Gone(None))
    ensures GaveUp(es, w) ==> DeniedAt(Run(es), w) || At(Run(es), w, Gone(None))
  {
    hide Enabled, GaveUp, Aborted;
    if es == [] {
      NobodyLeft(w);
    } else {
      var before, e := es[..|es| - 1], es[|es| - 1];
      HowItLeft(before, w);
      GaveUpGrows(es, w);
      AbortedGrows(es, w);
      if Enabled(Run(before), e) {
        StepLeft(Run(before), e, w);
      }
    }
  }

  lemma NobodyLeft(w: nat)
    ensures !Aborted([], w) && !GaveUp([], w)
  {
  }

  lemma StepLeft(s: State, e: Event, w: nat)
    requires Enabled(s, e)
    ensures At(Apply(s, e), w, Gone(None)) <==> At(s, w, Gone(None)) || e == Abort(w)
    ensures DeniedAt(s, w) || e == GraceOver(w) ==> DeniedAt(Apply(s, e), w) || At(Apply(s, e), w, Gone(None))
  {
  }

  lemma WhatItGot(s: State, w: nat)
    requires Inv(s) && Settled(s) && w < |s.waiters|
    ensures At(s, w, Gone(Some(Stored))) ==> Got(s, w, Stored)
    ensures Got(s, w, Denied) || Out(s, w) ==> !Got(s, w, Stored)
  {
    assert WaiterOk(s, w) && DeniedOk(s, w);
    hide Inv, Settled;
  }

  lemma HowOneCanLeave(s: State, w: nat)
    requires w < |s.waiters| && s.waiters[w].stage.Gone?
    ensures At(s, w, Gone(None)) || At(s, w, Gone(Some(Stored))) || At(s, w, Gone(Some(Denied)))
    ensures DeniedAt(s, w) <==> At(s, w, Gone(Some(Denied)))
  {
    match s.waiters[w].stage.returned
    case None =>
    case Some(o) =>
      match o
      case Stored =>
      case Denied =>
  }

  /** With distinct ids: a waiter that has left with a result returned stored exactly
      when it was told so while it was there and did not give up its grace wait; in
      particular, told stored and not given up, it returns stored, and told denied it
      returns denied. It leaves without a result exactly when it is dropped. */
  lemma ReturnsStoredIff(es: seq<Event>, w: nat)
    requires Distinct(Run(es)) && w < |Run(es).waiters| && Run(es).waiters[w].stage.Gone?
    ensures At(Run(es), w, Gone(Some(Stored))) <==> Told(es, w, Stored) && !GaveUp(es, w) && !Aborted(es, w)
    ensures Told(es, w, Denied) && !Aborted(es, w) ==> At(Run(es), w, Gone(Some(Denied)))
    ensures At(Run(es), w, Gone(None)) <==> Aborted(es, w)
  {
    RunKeepsInv(es);
    RunSettled(es);
    hide Inv, Settled, Distinct, Run, Told, GaveUp, Aborted, Out;
    HowItLeft(es, w);
    GotIsTold(es, w, Stored);
    GotIsTold(es, w, Denied);
    WhatItGot(Run(es), w);
    HowOneCanLeave(Run(es), w);
    if DeniedAt(Run(es), w) {
      DeniedIsOut(es, w);
    }
  }

  // ----- Two requests with one id -----

  /** The second request takes the first one's place in the table, and the first
      takes the second one's card for its own. */
  function SameId(): seq<Event> {
    [Begin("c"), Insert(0), Take(0, "c"), Begin("c"), Insert(1), Expire(0), TimeoutRemove(0), DropGuard(0),
      PersistOk(0)]
  }

  lemma SameIdUnfolds()
    ensures Run(SameId()) ==
      Step(Step(Step(
        Step(Step(Step(Step(Step(Step(Init(), Begin("c")), Insert(0)), Take(0, "c")), Begin("c")), Insert(1)),
          Expire(0)),
        TimeoutRemove(0)), DropGuard(0)), PersistOk(0))
  {
    hide Step;
    var e := SameId();
    assert e[..0] == [] && e[..1] == e[..0] + [e[0]] && e[..2] == e[..1] + [e[1]] && e[..3] == e[..2] + [e[2]];
    assert e[..4] == e[..3] + [e[3]] && e[..5] == e[..4] + [e[4]] && e[..6] == e[..5] + [e[5]];
    assert e[..7] == e[..6] + [e[6]] && e[..8] == e[..7] + [e[7]] && e == e[..8] + [e[8]];
    RunSplits(e[..0], e[0]);
    RunSplits(e[..1], e[1]);
    RunSplits(e[..2], e[2]);
    RunSplits(e[..3], e[3]);
    RunSplits(e[..4], e[4]);
    RunSplits(e[..5], e[5]);
    RunSplits(e[..6], e[6]);
    RunSplits(e[..7], e[7]);
    RunSplits(e[..8], e[8]);
  }

  const BOTH := State([Waiter("c", Waiting, [], 0), Waiter("c", Waiting, [], 0)], Table(map["c" := 1], {0, 1}),
    map[0 := Took(0)], {}, {})

  lemma SecondEnters()
    ensures Step(Step(MIDWAY, Begin("c")), Insert(1)) == BOTH
  {
    var s := Step(MIDWAY, Begin("c"));
    assert s == State([Waiter("c", Waiting, [], 0), Waiter("c", Ready, [], 0)], Table(map[], {0, 1}),
      map[0 := Took(0)], {}, {});
  }

  lemma FirstLeaves()
    ensures var s := Step(Step(Step(Step(BOTH, Expire(0)), TimeoutRemove(0)), DropGuard(0)), PersistOk(0));
      At(s, 0, Gone(Some(Denied))) && 0 in s.vault
  {
    var s1 := Step(BOTH, Expire(0));
    assert s1 == BOTH.(waiters := [Waiter("c", Expired, [], 0), Waiter("c", Waiting, [], 0)]);
    var s2 := Step(s1, TimeoutRemove(0));
    assert s2.waiters == [Waiter("c", Leaving(Denied), [], 0), Waiter("c", Waiting, [], 0)]
      && s2.responders == map[0 := Took(0)];
  }

  /** Without distinct ids a waiter can be denied and stored with no grace wait. */
  lemma SameIdDeniedYetStored()
    ensures At(Run(SameId()), 0, Gone(Some(Denied))) && 0 in Run(SameId()).vault
  {
    SameIdUnfolds();
    FirstThree();
    SecondEnters();
    FirstLeaves();
    hide *;
  }
}
