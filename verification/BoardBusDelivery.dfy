/** When an entry below the watermark has been delivered: exactly when no push and
    no pull has gone past it. */
module BoardBusDelivery {
  import opened Wrappers
  import opened BoardBus

  /** Nothing else has the entry's number. */
  ghost predicate Alone(entries: seq<Entry>, x: Entry) { forall y :: y in entries && y.number == x.number ==> y == x }

  function PostOf(x: Entry): Post { Post(x.thread, x.number) }

  // ----- One page -----

  /** The pull takes entry `j` of the page to be for this node and delivers it. */
  predicate Given(w: Wake, page: seq<Entry>, deliveries: seq<bool>, j: nat) {
    j < |page| && TargetsMe(SyncPage(w, page[..j], deliveries).wake, page[j]) && Delivers(deliveries, j)
  }

  /** A higher number of the entry's thread goes through on this page. */
  ghost predicate Higher(w: Wake, page: seq<Entry>, deliveries: seq<bool>, x: Entry) {
    exists j: nat :: Given(w, page, deliveries, j) && page[j].thread == x.thread && page[j].number > x.number
  }

  /** The entry itself goes through on this page. */
  ghost predicate Hit(w: Wake, page: seq<Entry>, deliveries: seq<bool>, x: Entry) {
    exists i: nat :: Given(w, page, deliveries, i) && page[i] == x
  }

  lemma GivenPrefix(w: Wake, page: seq<Entry>, deliveries: seq<bool>, j: nat)
    requires page != [] && j < |page| - 1
    ensures Given(w, page, deliveries, j) <==> Given(w, page[..|page| - 1], deliveries, j)
  {
    assert page[..|page| - 1][..j] == page[..j];
  }

  lemma HigherStep(w: Wake, page: seq<Entry>, deliveries: seq<bool>, x: Entry)
    requires page != []
    ensures var n := |page| - 1;
      Higher(w, page, deliveries, x) <==>
        (Higher(w, page[..n], deliveries, x)
          || (Given(w, page, deliveries, n) && page[n].thread == x.thread && page[n].number > x.number))
  {
    var n := |page| - 1;
    if Higher(w, page, deliveries, x) {
      var j: nat :| Given(w, page, deliveries, j) && page[j].thread == x.thread && page[j].number > x.number;
      if j < n {
        GivenPrefix(w, page, deliveries, j);
        assert page[..n][j] == page[j];
      }
    }
    if Higher(w, page[..n], deliveries, x) {
      var j: nat :| Given(w, page[..n], deliveries, j) && page[..n][j].thread == x.thread
        && page[..n][j].number > x.number;
      GivenPrefix(w, page, deliveries, j);
      assert page[j] == page[..n][j];
    }
  }

  lemma HitStep(w: Wake, page: seq<Entry>, deliveries: seq<bool>, x: Entry)
    requires page != []
    ensures var n := |page| - 1;
      Hit(w, page, deliveries, x) <==>
        (Hit(w, page[..n], deliveries, x) || (Given(w, page, deliveries, n) && page[n] == x))
  {
    var n := |page| - 1;
    if Hit(w, page, deliveries, x) {
      var j: nat :| Given(w, page, deliveries, j) && page[j] == x;
      if j < n {
        GivenPrefix(w, page, deliveries, j);
        assert page[..n][j] == page[j];
      }
    }
    if Hit(w, page[..n], deliveries, x) {
      var j: nat :| Given(w, page[..n], deliveries, j) && page[..n][j] == x;
      GivenPrefix(w, page, deliveries, j);
      assert page[j] == page[..n][j];
    }
  }

  /** One entry of a page, after what went before it. */
  lemma EntryPasses(p: Progress, e: Entry, delivered: bool, x: Entry, hit: bool, higher: bool)
    requires e.number == x.number ==> e == x
    requires (p.wake.Cursor(x.thread) >= x.number <==> hit || higher) && (PostOf(x) in p.sent <==> hit)
    requires higher || hit ==> e.number > x.number
    requires e.number > x.number ==> p.wake.Cursor(x.thread) < e.number
    ensures var q, hit2 := SyncEntry(p, e, delivered), hit || (TargetsMe(p.wake, e) && delivered && e == x);
      var higher2 := higher || (TargetsMe(p.wake, e) && delivered && e.thread == x.thread && e.number > x.number);
      (q.wake.Cursor(x.thread) >= x.number <==> hit2 || higher2) && (PostOf(x) in q.sent <==> hit2)
  {
  }

  /** A page in order, over an entry not handled before: it is handed over exactly
      when it goes through itself, and its cursor has passed it exactly when it or a
      higher one of its thread went through. */
  lemma {:induction false} PagePasses(w: Wake, page: seq<Entry>, deliveries: seq<bool>, x: Entry)
    requires Ascending(page) && Alone(page, x) && w.Cursor(x.thread) < x.number
    ensures var p := SyncPage(w, page, deliveries);
      && (p.wake.Cursor(x.thread) >= x.number <==> Hit(w, page, deliveries, x) || Higher(w, page, deliveries, x))
      && (PostOf(x) in p.sent <==> Hit(w, page, deliveries, x))
    ensures Hit(w, page, deliveries, x) || Higher(w, page, deliveries, x) ==>
      page != [] && page[|page| - 1].number >= x.number
  {
    if page != [] {
      var n := |page| - 1;
      var before := page[..n];
      assert Ascending(before) by { assert forall i :: 0 <= i < n ==> before[i] == page[i]; }
      PagePasses(w, before, deliveries, x);
      HigherStep(w, page, deliveries, x);
      HitStep(w, page, deliveries, x);
      assert page[n] in page;
      assert n > 0 ==> before[n - 1] == page[n - 1] && page[n - 1].number < page[n].number;
      if page[n].number > x.number {
        CursorBelow(w, before, deliveries, x.thread, page[n].number);
        assert forall i :: 0 <= i < n ==> before[i].number < page[n].number;
      }
      hide Higher, Hit, SyncPage, Ascending, Judged, Alone;
      PageStep(w, page, deliveries);
      EntryPasses(SyncPage(w, before, deliveries), page[n], Delivers(deliveries, n), x, Hit(w, before, deliveries, x),
        Higher(w, before, deliveries, x));
    }
  }

  /** A new entry of the page that does not go through: its cursor passes it all the
      same, and no later pull hands it over, exactly when a later entry of its thread
      goes through on the same page. */
  lemma FailedIsPassedIff(w: Wake, page: seq<Entry>, deliveries: seq<bool>, i: nat)
    requires Ascending(page) && i < |page| && !Given(w, page, deliveries, i)
    requires w.Cursor(page[i].thread) < page[i].number
    ensures SyncPage(w, page, deliveries).wake.Cursor(page[i].thread) >= page[i].number <==>
      exists j :: i < j < |page| && Given(w, page, deliveries, j) && page[j].thread == page[i].thread
  {
    var x := page[i];
    PagePasses(w, page, deliveries, x);
    assert !Hit(w, page, deliveries, x);
    hide Given, SyncPage, Judged;
    if Higher(w, page, deliveries, x) {
      var j: nat :| Given(w, page, deliveries, j) && page[j].thread == x.thread && page[j].number > x.number;
      assert i < j;
    }
    if j :| i < j < |page| && Given(w, page, deliveries, j) && page[j].thread == x.thread {
      assert page[j].number > x.number;
    }
  }

  lemma PageStep(w: Wake, page: seq<Entry>, deliveries: seq<bool>)
    requires page != []
    ensures SyncPage(w, page, deliveries)
      == SyncEntry(SyncPage(w, page[..|page| - 1], deliveries), page[|page| - 1], Delivers(deliveries, |page| - 1))
  {
  }

  /** No cursor gets beyond what is on the page. */
  lemma {:induction false} CursorBelow(w: Wake, page: seq<Entry>, deliveries: seq<bool>, k: Key, bound: int)
    requires w.Cursor(k) < bound
    ensures (forall i :: 0 <= i < |page| ==> page[i].number < bound) ==>
      SyncPage(w, page, deliveries).wake.Cursor(k) < bound
  {
    if page != [] {
      CursorBelow(w, page[..|page| - 1], deliveries, k, bound);
    }
  }

  // ----- Runs -----

  /** The event takes the cursor of the entry's thread past the entry, and the entry
      is left behind: a higher number is pushed and accepted, or goes through on a
      page on which the entry itself does not. */
  ghost predicate GoesPast(s: State, e: Event, x: Entry) {
    && Enabled(s, e) && s.wake.Cursor(x.thread) < x.number
    && match e
       case WakePost(k, number, delivered, _) => delivered && k == x.thread && number > x.number
       case Sync(_, deliveries, _) =>
         var page := Page(s.ledger, s.wake.watermark);
         Higher(s.wake, page, deliveries, x) && !Hit(s.wake, page, deliveries, x)
       case _ => false
  }

  lemma PageAscends(s: State)
    requires Shape(s)
    ensures Ascending(Page(s.ledger, s.wake.watermark))
  {
    NewerAscends(s.ledger, s.wake.watermark);
    hide Newer;
  }

  /** One step over an entry not handled yet. */
  lemma StepPasses(s: State, e: Event, x: Entry)
    requires Shape(s) && Enabled(s, e) && !e.Restart? && x.number > 0 && Alone(s.ledger, x)
    requires s.wake.Cursor(x.thread) < x.number && PostOf(x) !in s.sent
    ensures var t := Apply(s, e);
      && (PostOf(x) in t.sent ==> !GoesPast(s, e, x))
      && (t.wake.Cursor(x.thread) >= x.number <==> PostOf(x) in t.sent || GoesPast(s, e, x))
  {
    if e.Sync? {
      var page := Page(s.ledger, s.wake.watermark);
      PageAscends(s);
      PageInLedger(s.ledger, s.wake.watermark);
      assert Alone(page, x);
      PagePasses(s.wake, page, e.deliveries, x);
      hide Page, SyncPage, Judged, SavedBy, Latest, Ascending, Higher, Hit;
    } else {
      hide Page, SyncPage, Judged, SavedBy, Ascending, Higher, Hit;
    }
  }

  /** Once the cursor has passed the entry, nothing hands it over any more. */
  lemma StepAfter(s: State, e: Event, x: Entry)
    requires Shape(s) && Enabled(s, e) && !e.Restart? && s.wake.Cursor(x.thread) >= x.number
    ensures var t := Apply(s, e);
      t.wake.Cursor(x.thread) >= x.number && (PostOf(x) in t.sent <==> PostOf(x) in s.sent) && !GoesPast(s, e, x)
  {
    if e.Sync? {
      PageMovesForward(s.wake, Page(s.ledger, s.wake.watermark), e.deliveries);
      PageSendsNew(s.wake, Page(s.ledger, s.wake.watermark), e.deliveries);
    }
    hide Page, SyncPage, Judged, SavedBy, Latest, Ascending, Higher, Hit;
  }

  lemma {:induction false} PageSendsNew(w: Wake, page: seq<Entry>, deliveries: seq<bool>)
    ensures forall p :: p in SyncPage(w, page, deliveries).sent ==> p.number > w.Cursor(p.thread)
  {
    if page != [] {
      PageSendsNew(w, page[..|page| - 1], deliveries);
      PageMovesForward(w, page[..|page| - 1], deliveries);
      PageStep(w, page, deliveries);
      hide SyncPage;
    }
  }

  predicate NoRestart(es: seq<Event>) { forall k :: 0 <= k < |es| ==> !es[k].Restart? }

  lemma StepLedger(s: State, e: Event)
    ensures s.ledger <= Step(s, e).ledger
  {
    hide Page, SyncPage, Judged, SavedBy, Latest, Ascending;
  }

  /** No event of the run goes past the entry. */
  ghost predicate NothingGoesPast(es: seq<Event>, x: Entry) {
    forall k :: 0 <= k < |es| ==> !GoesPast(Run(es[..k]), es[k], x)
  }

  lemma NothingGoesPastStep(es: seq<Event>, x: Entry)
    requires es != []
    ensures var before, e := es[..|es| - 1], es[|es| - 1];
      NothingGoesPast(es, x) <==> (NothingGoesPast(before, x) && !GoesPast(Run(before), e, x))
  {
    hide Run, GoesPast;
    var last := |es| - 1;
    var before := es[..last];
    assert forall k :: 0 <= k < last ==> before[..k] == es[..k] && before[k] == es[k];
  }

  /** Over a run without a restart: an entry the cursor has not reached has neither
      been handed over nor left behind; one the cursor has reached was handed over
      exactly when no event went past it. */
  lemma {:induction false} PassedOrSent(es: seq<Event>, x: Entry)
    requires NoRestart(es) && x.number > 0 && Alone(Run(es).ledger, x)
    ensures var s := Run(es);
      && (s.wake.Cursor(x.thread) < x.number ==> PostOf(x) !in s.sent && NothingGoesPast(es, x))
      && (s.wake.Cursor(x.thread) >= x.number ==> (PostOf(x) in s.sent <==> NothingGoesPast(es, x)))
  {
    hide Apply, Enabled, GoesPast, Shape;
    if es != [] {
      var before, e := es[..|es| - 1], es[|es| - 1];
      StepLedger(Run(before), e);
      assert Alone(Run(before).ledger, x);
      PassedOrSent(before, x);
      NothingGoesPastStep(es, x);
      RunShape(before);
      hide NothingGoesPast, Alone, SentOk;
      if !Enabled(Run(before), e) {
        NotPast(Run(before), e, x);
      } else if Run(before).wake.Cursor(x.thread) < x.number {
        StepPasses(Run(before), e, x);
      } else {
        StepAfter(Run(before), e, x);
      }
    }
  }

  lemma NotPast(s: State, e: Event, x: Entry)
    requires !Enabled(s, e)
    ensures !GoesPast(s, e, x)
  {
  }

  lemma EntryIsAlone(s: State, x: Entry)
    requires Shape(s) && x in s.ledger
    ensures x.number > 0 && Alone(s.ledger, x)
  {
    var i :| 0 <= i < |s.ledger| && s.ledger[i] == x;
    assert s.ledger[i].number > 0;
    forall y | y in s.ledger && y.number == x.number ensures y == x {
      var j :| 0 <= j < |s.ledger| && s.ledger[j] == y;
      assert !(i < j) && !(j < i);
    }
  }

  /** With complete replies and no restart, an entry that names this node and that
      the watermark has passed was handed to the inbox exactly when no push and no
      pull went past it. */
  lemma DeliveredIff(es: seq<Event>, x: Entry)
    requires WholeRun(es) && NoRestart(es) && Mentioned(Run(es), x) && x.number <= Run(es).wake.watermark
    ensures PostOf(x) in Run(es).sent <==> NothingGoesPast(es, x)
  {
    RunShape(es);
    EntryIsAlone(Run(es), x);
    NothingIsPassedOver(es, x);
    PassedOrSent(es, x);
    hide Run, NothingGoesPast, Shape, WholeRun;
  }

  // ----- The same, read off what went to the inbox -----

  /** A higher number of the entry's thread was handed over, and the entry not
      before it. */
  ghost predicate Overtaken(sent: seq<Post>, x: Entry) {
    exists j :: 0 <= j < |sent| && sent[j].thread == x.thread && sent[j].number > x.number && PostOf(x) !in sent[..j]
  }

  /** The cursors come from what was handed over. */
  ghost predicate Accounted(sent: seq<Post>, w: Wake) {
    forall k :: w.Cursor(k) == 0 || Post(k, w.Cursor(k)) in sent
  }

  lemma AccountedGrows(sent: seq<Post>, w: Wake, k: Key, number: int)
    requires Accounted(sent, w) && w.Peek(k, number)
    ensures Accounted(sent + [Post(k, number)], w.Commit(k, number))
  {
    var more, c := sent + [Post(k, number)], w.Commit(k, number);
    assert more[|sent|] == Post(k, number);
    forall j ensures c.Cursor(j) == 0 || Post(j, c.Cursor(j)) in more {
      assert j != k ==> c.Cursor(j) == w.Cursor(j);
    }
  }

  lemma {:induction false} AccountedOverPage(sent: seq<Post>, w: Wake, page: seq<Entry>, deliveries: seq<bool>)
    requires Accounted(sent, w)
    ensures Accounted(sent + SyncPage(w, page, deliveries).sent, SyncPage(w, page, deliveries).wake)
  {
    hide Accounted;
    if page == [] {
      assert sent + [] == sent;
    } else {
      var n := |page| - 1;
      AccountedOverPage(sent, w, page[..n], deliveries);
      PageStep(w, page, deliveries);
      var p, e := SyncPage(w, page[..n], deliveries), page[n];
      hide SyncPage;
      if TargetsMe(p.wake, e) && p.wake.Peek(e.thread, e.number) && Delivers(deliveries, n) {
        AccountedGrows(sent + p.sent, p.wake, e.thread, e.number);
        assert sent + p.sent + [Post(e.thread, e.number)] == sent + (p.sent + [Post(e.thread, e.number)]);
      }
    }
  }

  lemma StepAccounted(s: State, e: Event)
    requires Accounted(s.sent, s.wake) && Enabled(s, e) && !e.Restart?
    ensures Accounted(Apply(s, e).sent, Apply(s, e).wake)
  {
    if e.WakePost? {
      if e.delivered && s.wake.Peek(e.thread, e.number) {
        AccountedGrows(s.sent, s.wake, e.thread, e.number);
      }
      hide Accounted;
    } else if e.Sync? {
      var page := Page(s.ledger, s.wake.watermark);
      AccountedOverPage(s.sent, s.wake, page, e.deliveries);
      AdvanceKeeps(SyncPage(s.wake, page, e.deliveries).wake,
        SyncAdvanceTarget(SyncPage(s.wake, page, e.deliveries).firstUndelivered, Latest(s.ledger + e.late)));
      hide Page, SyncPage, SavedBy, Judged, Latest;
    }
  }

  lemma AdvanceKeeps(w: Wake, number: int)
    ensures forall k :: w.Advance(number).Cursor(k) == w.Cursor(k)
  {
  }

  lemma {:induction false} RunAccounted(es: seq<Event>)
    requires NoRestart(es)
    ensures Accounted(Run(es).sent, Run(es).wake)
  {
    hide Apply, Enabled;
    if es != [] {
      var before, e := es[..|es| - 1], es[|es| - 1];
      RunAccounted(before);
      hide Accounted;
      if Enabled(Run(before), e) {
        StepAccounted(Run(before), e);
      }
    }
  }

  lemma SentMeansFirst(sent: seq<Post>, w: Wake, x: Entry)
    requires SentOk(sent, w) && PostOf(x) in sent
    ensures !Overtaken(sent, x)
  {
    var i :| 0 <= i < |sent| && sent[i] == PostOf(x);
    forall j | 0 <= j < |sent| && sent[j].thread == x.thread && sent[j].number > x.number
      ensures PostOf(x) in sent[..j]
    {
      assert !(j < i) && sent[..j][i] == PostOf(x);
    }
  }

  lemma MissingMeansOvertaken(sent: seq<Post>, w: Wake, x: Entry)
    requires Accounted(sent, w) && w.Cursor(x.thread) >= x.number > 0 && PostOf(x) !in sent
    ensures Overtaken(sent, x)
  {
    var j :| 0 <= j < |sent| && sent[j] == Post(x.thread, w.Cursor(x.thread));
    assert sent[j] != PostOf(x) && PostOf(x) !in sent[..j];
  }

  /** What the cursor has passed was handed over exactly when it was not overtaken. */
  lemma OvertakenIff(sent: seq<Post>, w: Wake, x: Entry)
    requires SentOk(sent, w) && Accounted(sent, w) && w.Cursor(x.thread) >= x.number > 0
    ensures PostOf(x) in sent <==> !Overtaken(sent, x)
  {
    hide SentOk, Accounted, Overtaken;
    if PostOf(x) in sent {
      SentMeansFirst(sent, w, x);
    } else {
      MissingMeansOvertaken(sent, w, x);
    }
  }

  /** The condition once more, on the inbox alone: an entry that names this node and
      that the watermark has passed was handed over exactly when no higher number of
      its thread was handed over before it. */
  lemma DeliveredUnlessOvertaken(es: seq<Event>, x: Entry)
    requires WholeRun(es) && NoRestart(es) && Mentioned(Run(es), x) && x.number <= Run(es).wake.watermark
    ensures PostOf(x) in Run(es).sent <==> !Overtaken(Run(es).sent, x)
  {
    RunShape(es);
    EntryIsAlone(Run(es), x);
    NothingIsPassedOver(es, x);
    RunAccounted(es);
    hide Run, WholeRun, Shape, NoRestart;
    OvertakenIff(Run(es).sent, Run(es).wake, x);
  }

  /** No delivery fails, and yet: the first push is missed, the second arrives, and
      the pull, which is there to bring what was missed, takes the first entry for a
      duplicate. */
  lemma MissedPushIsNotPulled()
    ensures var s := Run([Append(FIRST), Append(SECOND), WakePost("t", 2, true, false), Sync([], [true, true], None)]);
      && Mentioned(s, FIRST) && s.wake.watermark >= FIRST.number && s.sent == [Post("t", 2)]
  {
    var e2 := [Append(FIRST), Append(SECOND)];
    var e3 := e2 + [WakePost("t", 2, true, false)];
    TwoAppended();
    assert e3[..2] == e2;
    assert Run(e3) == Step(Run(e2), WakePost("t", 2, true, false));
    assert Run(e3).wake == Wake(map["t" := 2], {"t"}, 0) && Run(e3).sent == [Post("t", 2)]
      && Run(e3).ledger == [FIRST, SECOND];
    SecondPull();
    PlainPull(e3, [true, true]);
    assert [Append(FIRST), Append(SECOND), WakePost("t", 2, true, false), Sync([], [true, true], None)] ==
      e3 + [Sync([], [true, true], None)];
    hide Run, Page, SyncPage, Judged, SavedBy;
  }

  // ----- How far a pull advances the watermark -----

  /** The pull takes entry `j` of the page to be for this node and new, and its
      delivery fails. */
  predicate Missed(w: Wake, page: seq<Entry>, deliveries: seq<bool>, j: nat) {
    && j < |page| && !Delivers(deliveries, j)
    && TargetsMe(SyncPage(w, page[..j], deliveries).wake, page[j])
    && SyncPage(w, page[..j], deliveries).wake.Peek(page[j].thread, page[j].number)
  }

  ghost predicate MissedUpTo(w: Wake, page: seq<Entry>, deliveries: seq<bool>, n: int) {
    exists j: nat :: Missed(w, page, deliveries, j) && page[j].number <= n
  }

  lemma MissedPrefix(w: Wake, page: seq<Entry>, deliveries: seq<bool>, j: nat)
    requires page != [] && j < |page| - 1
    ensures Missed(w, page, deliveries, j) <==> Missed(w, page[..|page| - 1], deliveries, j)
  {
    assert page[..|page| - 1][..j] == page[..j];
  }

  lemma MissedStep(w: Wake, page: seq<Entry>, deliveries: seq<bool>, n: int)
    requires page != []
    ensures var last := |page| - 1;
      MissedUpTo(w, page, deliveries, n) <==>
        MissedUpTo(w, page[..last], deliveries, n)
          || (Missed(w, page, deliveries, last) && page[last].number <= n)
  {
    var last := |page| - 1;
    var front := page[..last];
    assert forall j: nat :: Missed(w, page, deliveries, j) ==> j <= last;
    assert forall j: nat :: Missed(w, front, deliveries, j) ==> j < last;
    hide Missed;
    if j: nat :| Missed(w, page, deliveries, j) && page[j].number <= n && j < last {
      MissedPrefix(w, page, deliveries, j);
      assert front[j] == page[j];
    }
    if j: nat :| Missed(w, front, deliveries, j) && front[j].number <= n {
      MissedPrefix(w, page, deliveries, j);
      assert front[j] == page[j];
    }
  }

  lemma {:induction false} FirstUndeliveredIs(w: Wake, page: seq<Entry>, deliveries: seq<bool>, n: int)
    ensures var first := SyncPage(w, page, deliveries).firstUndelivered;
      MissedUpTo(w, page, deliveries, n) <==> first.Some? && first.value <= n
  {
    if page != [] {
      FirstUndeliveredIs(w, page[..|page| - 1], deliveries, n);
      MissedStep(w, page, deliveries, n);
      PageStep(w, page, deliveries);
      hide SyncPage, MissedUpTo;
    }
  }

  /** The watermark gets as far as it may: to a number above the old one exactly when
      that is not above the latest and no delivery up to it failed. */
  lemma WatermarkReachesIff(w: Wake, page: seq<Entry>, latest: int, deliveries: seq<bool>, n: int)
    requires n > w.watermark
    ensures SyncOnce(w, page, latest, deliveries).watermark >= n <==>
      n <= latest && !MissedUpTo(w, page, deliveries, n)
  {
    FirstUndeliveredIs(w, page, deliveries, n);
    PageMovesForward(w, page, deliveries);
    hide SyncPage, MissedUpTo;
  }

  // ----- What survives a restart -----

  /** A pull whose last snapshot reached the disk, and a restart that can read it: the
      process goes on where it stopped. */
  lemma SavedPullSurvives(es: seq<Event>, late: seq<Entry>, deliveries: seq<bool>, m: nat)
    requires Enabled(Run(es), Sync(late, deliveries, Some(m)))
    requires m > |Page(Run(es).ledger, Run(es).wake.watermark)|
    ensures var pulled := es + [Sync(late, deliveries, Some(m))];
      Run(pulled + [Restart(true)]).wake == Run(pulled).wake
  {
    var e := Sync(late, deliveries, Some(m));
    var pulled := es + [e];
    assert pulled[..|es|] == es;
    assert Run(pulled).disk == Run(pulled).wake.Saved() by {
      hide Page, SyncPage, Judged, Latest, Ascending;
    }
    hide Apply, Page, SyncPage;
    ReloadsItself(pulled);
  }

  /** A state that is on disk as it is comes back from there. */
  lemma ReloadsItself(es: seq<Event>)
    requires Run(es).disk == Run(es).wake.Saved()
    ensures Run(es + [Restart(true)]).wake == Run(es).wake
  {
    RunShape(es);
    assert (es + [Restart(true)])[..|es|] == es;
    hide Page, SyncPage, Judged, Latest, Ascending;
  }

  /** The same for an accepted push. */
  lemma SavedPushSurvives(es: seq<Event>, k: Key, number: int)
    requires Run(es).wake.Peek(k, number)
    ensures var pushed := es + [WakePost(k, number, true, true)];
      Run(pushed + [Restart(true)]).wake == Run(pushed).wake
  {
    var e := WakePost(k, number, true, true);
    var pushed := es + [e];
    assert pushed[..|es|] == es;
    assert Run(pushed) == Apply(Run(es), e);
    ReloadsItself(pushed);
    hide Page, SyncPage, Judged, Latest, Ascending;
  }
}
