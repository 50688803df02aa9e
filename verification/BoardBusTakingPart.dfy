/** Taking part in a thread: what comes to a thread in which the node was handed
    something is covered and delivered like what names the node; and nothing else
    is pulled. */
module BoardBusTakingPart {
  import opened BoardBus
  import opened BoardBusDelivery

  ghost predicate SentTo(sent: seq<Post>, k: Key) { exists i :: 0 <= i < |sent| && sent[i].thread == k }

  // ----- Where taking part comes from -----

  /** The node takes part in the threads of `restored`, and in those of which it
      was handed something. */
  ghost predicate PartsAre(restored: set<Key>, sent: seq<Post>, w: Wake) {
    forall k :: k in w.participated <==> k in restored || SentTo(sent, k)
  }

  lemma PartsGrow(restored: set<Key>, sent: seq<Post>, w: Wake, k: Key, number: int)
    requires PartsAre(restored, sent, w)
    ensures PartsAre(restored, sent + [Post(k, number)], w.Commit(k, number))
  {
    var more := sent + [Post(k, number)];
    assert more[|sent|] == Post(k, number);
    forall j ensures SentTo(more, j) <==> SentTo(sent, j) || j == k {
      if SentTo(sent, j) {
        var i :| 0 <= i < |sent| && sent[i].thread == j;
        assert more[i].thread == j;
      }
    }
  }

  lemma {:induction false} PartsOverPage(restored: set<Key>, sent: seq<Post>, w: Wake, page: seq<Entry>,
                                         deliveries: seq<bool>)
    requires PartsAre(restored, sent, w)
    ensures PartsAre(restored, sent + SyncPage(w, page, deliveries).sent, SyncPage(w, page, deliveries).wake)
  {
    hide PartsAre;
    if page == [] {
      assert sent + [] == sent;
    } else {
      var n := |page| - 1;
      PartsOverPage(restored, sent, w, page[..n], deliveries);
      PageStep(w, page, deliveries);
      var p, e := SyncPage(w, page[..n], deliveries), page[n];
      hide SyncPage;
      if TargetsMe(p.wake, e) && p.wake.Peek(e.thread, e.number) && Delivers(deliveries, n) {
        PartsGrow(restored, sent + p.sent, p.wake, e.thread, e.number);
        assert sent + p.sent + [Post(e.thread, e.number)] == sent + (p.sent + [Post(e.thread, e.number)]);
      }
    }
  }

  lemma StepParts(restored: set<Key>, s: State, e: Event)
    requires PartsAre(restored, s.sent, s.wake) && Enabled(s, e) && !e.Restart?
    ensures PartsAre(restored, Apply(s, e).sent, Apply(s, e).wake)
  {
    if e.WakePost? {
      if e.delivered && s.wake.Peek(e.thread, e.number) {
        PartsGrow(restored, s.sent, s.wake, e.thread, e.number);
      }
      hide PartsAre;
    } else if e.Sync? {
      PartsOverPage(restored, s.sent, s.wake, Page(s.ledger, s.wake.watermark), e.deliveries);
      hide Page, SyncPage, SavedBy, Judged, Latest, SentTo;
    } else {
      hide PartsAre;
    }
  }

  lemma RunSplits(es: seq<Event>, e: Event)
    ensures Run(es + [e]) == Step(Run(es), e)
  {
    assert (es + [e])[..|es|] == es;
  }

  /** A process starts with the threads of its snapshot; from then on it takes part
      in those and in the ones of which something was handed over, and no others. */
  lemma {:induction false} TakesPartIff(before: seq<Event>, more: seq<Event>, k: Key)
    requires Run(before).sent == [] && NoRestart(more)
    ensures k in Run(before + more).wake.participated <==>
      k in Run(before).wake.participated || SentTo(Run(before + more).sent, k)
  {
    RunParts(before, more);
    hide Run, SentTo;
  }

  lemma {:induction false} RunParts(before: seq<Event>, more: seq<Event>)
    requires Run(before).sent == [] && NoRestart(more)
    ensures PartsAre(Run(before).wake.participated, Run(before + more).sent, Run(before + more).wake)
    decreases |more|
  {
    hide Apply, Enabled;
    if more == [] {
      assert before + more == before;
    } else {
      var front, e := more[..|more| - 1], more[|more| - 1];
      RunParts(before, front);
      assert before + more == (before + front) + [e];
      RunSplits(before + front, e);
      hide PartsAre, Run;
      if Enabled(Run(before + front), e) {
        StepParts(Run(before).wake.participated, Run(before + front), e);
      }
    }
  }

  // ----- What comes to such a thread -----

  /** The node takes part in the thread of an entry that is not its own, and if the
      entry is in the ledger, it is covered. */
  ghost predicate PartOk(s: State, x: Entry) {
    !x.mine && x.thread in s.wake.participated && (x in s.ledger ==> CoveredIn(s, x))
  }

  lemma AheadIsCovered(s: State, x: Entry)
    requires Shape(s) && x.number > s.wake.watermark
    ensures CoveredIn(s, x)
  {
    hide Ascending, Latest;
  }

  lemma StepPart(s: State, e: Event, x: Entry)
    requires Shape(s) && Enabled(s, e) && Whole(s, e) && !e.Restart? && PartOk(s, x)
    ensures PartOk(Apply(s, e), x)
  {
    match e
    case Append(_) =>
      if x !in s.ledger && x in Apply(s, e).ledger {
        AheadIsCovered(s, x);
      }
    case WakePost(k, number, _, _) =>
      if x in s.ledger {
        CoversStays(s.wake, s.wake.Commit(k, number), x);
      }
    case Sync(late, deliveries, saved) =>
      SavedBetween(s, late, deliveries, saved);
      if x in s.ledger + late {
        if x !in s.ledger {
          LateIsNewer(s.ledger, late, x);
        }
        PulledIsCovered(s, e, x);
      }
      hide Page, SyncPage, SavedBy, Judged, Latest, Ascending, CoveredIn;
  }

  /** From the moment the node takes part in a thread: with complete replies, nothing
      of the thread that the watermark has not passed by then, whether it is in the
      ledger or still to come, is passed over later. */
  lemma {:induction false} PartIsCovered(before: seq<Event>, more: seq<Event>, x: Entry)
    requires WholeRun(before + more) && NoRestart(more) && !x.mine
    requires x.thread in Run(before).wake.participated && x.number > Run(before).wake.watermark
    ensures PartOk(Run(before + more), x)
    decreases |more|
  {
    hide Apply, Enabled, Shape, Whole, CoveredIn, SentOk;
    RunShape(before);
    if more == [] {
      assert before + more == before;
      AheadIsCovered(Run(before), x);
    } else {
      var front, e := more[..|more| - 1], more[|more| - 1];
      assert before + more == (before + front) + [e];
      PrefixWhole(before + more);
      assert (before + more)[..|before + more| - 1] == before + front;
      PartIsCovered(before, front, x);
      RunSplits(before + front, e);
      RunShape(before + front);
      hide PartOk, Run;
      if Enabled(Run(before + front), e) {
        StepPart(Run(before + front), e, x);
      }
    }
  }

  /** With complete replies and no restart: once something of a thread has been handed
      over, an entry of that thread that the watermark had not passed by then, and that
      is not the node's own, has been passed by its cursor when the watermark has
      passed it; and it was handed over exactly when nothing went past it, that is,
      when no higher number of the thread was handed over before it. */
  lemma PartDeliveredIff(before: seq<Event>, more: seq<Event>, x: Entry)
    requires WholeRun(before + more) && NoRestart(before + more) && x in Run(before + more).ledger && !x.mine
    requires SentTo(Run(before).sent, x.thread)
    requires Run(before).wake.watermark < x.number <= Run(before + more).wake.watermark
    ensures Run(before + more).wake.Cursor(x.thread) >= x.number
    ensures PostOf(x) in Run(before + more).sent <==> NothingGoesPast(before + more, x)
    ensures PostOf(x) in Run(before + more).sent <==> !Overtaken(Run(before + more).sent, x)
  {
    var es := before + more;
    assert NoRestart(before) && NoRestart(more) by {
      assert forall k :: 0 <= k < |before| ==> es[k] == before[k];
      assert forall k :: 0 <= k < |more| ==> es[|before| + k] == more[k];
    }
    assert [] + before == before;
    TakesPartIff([], before, x.thread);
    PartIsCovered(before, more, x);
    RunShape(es);
    EntryIsAlone(Run(es), x);
    PassedOrSent(es, x);
    RunAccounted(es);
    hide Run, NothingGoesPast, WholeRun, Shape, NoRestart, Alone, SentTo;
    OvertakenIff(Run(es).sent, Run(es).wake, x);
  }

  // ----- Nothing else is pulled -----

  /** Post `j` of the pull is an entry of the page that is not the node's own, and
      that names it or belongs to one of `parts` or to a thread pulled before it. */
  ghost predicate MeantForMe(page: seq<Entry>, parts: set<Key>, sent: seq<Post>, j: nat)
    requires j < |sent|
  {
    exists x :: x in page && PostOf(x) == sent[j] && !x.mine
      && (x.mentions || x.thread in parts || SentTo(sent[..j], x.thread))
  }

  lemma {:induction false} PulledIsMeant(w: Wake, page: seq<Entry>, deliveries: seq<bool>, j: nat)
    requires j < |SyncPage(w, page, deliveries).sent|
    ensures MeantForMe(page, w.participated, SyncPage(w, page, deliveries).sent, j)
  {
    var n := |page| - 1;
    var sent, front := SyncPage(w, page, deliveries).sent, SyncPage(w, page[..n], deliveries).sent;
    assert forall y :: y in page[..n] ==> y in page;
    if j < |front| {
      PulledIsMeant(w, page[..n], deliveries, j);
      assert sent[..j] == front[..j];
    } else {
      assert PartsAre(w.participated, [], w);
      PartsOverPage(w.participated, [], w, page[..n], deliveries);
      assert [] + front == front && sent[..j] == front;
      assert PostOf(page[n]) == sent[j];
    }
  }

  lemma SentLonger(a: seq<Post>, b: seq<Post>, k: Key)
    ensures SentTo(a + b, k) <==> SentTo(a, k) || SentTo(b, k)
  {
    var both := a + b;
    if SentTo(a, k) {
      var i :| 0 <= i < |a| && a[i].thread == k;
      assert both[i].thread == k;
    }
    if SentTo(b, k) {
      var i :| 0 <= i < |b| && b[i].thread == k;
      assert both[|a| + i].thread == k;
    }
  }

  /** The same behind what was handed over before the pull. */
  lemma MeantBehind(restored: set<Key>, before: seq<Post>, w: Wake, page: seq<Entry>, sent: seq<Post>, i: nat)
    requires i < |sent| && MeantForMe(page, w.participated, sent, i) && PartsAre(restored, before, w)
    ensures MeantForMe(page, restored, before + sent, |before| + i)
  {
    var both := before + sent;
    var x :| x in page && PostOf(x) == sent[i] && !x.mine
      && (x.mentions || x.thread in w.participated || SentTo(sent[..i], x.thread));
    SentLonger(before, sent[..i], x.thread);
    assert both[..|before| + i] == before + sent[..i] && both[|before| + i] == sent[i];
    hide SentTo;
  }

  /** What a pull hands over is new in the ledger and not the node's own; and it names
      the node, or its thread is one of the snapshot that the process started with, or
      something of its thread was handed over before. */
  lemma NothingElseIsPulled(before: seq<Event>, more: seq<Event>, e: Event, j: nat)
    requires Run(before).sent == [] && NoRestart(more) && e.Sync? && Enabled(Run(before + more), e)
    requires |Run(before + more).sent| <= j < |Run(before + more + [e]).sent|
    ensures var s, sent := Run(before + more), Run(before + more + [e]).sent;
      exists x :: x in s.ledger && x.number > s.wake.watermark && PostOf(x) == sent[j] && !x.mine
        && (x.mentions || x.thread in Run(before).wake.participated || SentTo(sent[..j], x.thread))
  {
    var s, t := Run(before + more), Run(before + more + [e]);
    RunSplits(before + more, e);
    RunParts(before, more);
    PageInLedger(s.ledger, s.wake.watermark);
    var page := Page(s.ledger, s.wake.watermark);
    var sent := SyncPage(s.wake, page, e.deliveries).sent;
    PullSends(s, e);
    hide Run, Page, SyncPage, Apply, Enabled, SentTo, PartsAre;
    assert t.sent == s.sent + sent;
    PulledIsMeant(s.wake, page, e.deliveries, j - |s.sent|);
    MeantBehind(Run(before).wake.participated, s.sent, s.wake, page, sent, j - |s.sent|);
  }

  lemma PullSends(s: State, e: Event)
    requires e.Sync?
    ensures Apply(s, e).sent == s.sent + SyncPage(s.wake, Page(s.ledger, s.wake.watermark), e.deliveries).sent
  {
    hide Page, SyncPage, SavedBy, Judged, Latest;
  }
}
