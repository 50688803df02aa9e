/** The worker's downstream cursors: pushed wake posts and the periodic pull feed
    the same per-thread cursors and one watermark. */
module BoardBus {
  import opened Wrappers

  type Key = string

  const BOARD_SYNC_PULL_LIMIT: nat := 500

  // ----- Cursor state -----

  /** `threads` holds the last handled number per thread, `participated` the
      threads this node took part in, `watermark` the last number pulled. */
  datatype Wake = Wake(threads: map<Key, int>, participated: set<Key>, watermark: int) {
    function Cursor(k: Key): int { if k in threads then threads[k] else 0 }

    predicate Peek(k: Key, number: int) { number > Cursor(k) }

    function Commit(k: Key, number: int): Wake {
      Wake(threads[k := if number > Cursor(k) then number else Cursor(k)], participated + {k}, watermark)
    }

    function Advance(number: int): Wake { this.(watermark := if number > watermark then number else watermark) }

    function Saved(): Snapshot { Snapshot(threads, watermark) }
  }

  /** What is written to disk; taking part is rebuilt from the threads. */
  datatype Snapshot = Snapshot(threads: map<Key, int>, watermark: int) {
    function Load(): Wake { Wake(threads, threads.Keys, watermark) }
  }

  const EMPTY := Snapshot(map[], 0)

  /** No cursor and no watermark is behind. */
  ghost predicate AtMost(a: Wake, b: Wake) {
    a.watermark <= b.watermark && a.participated <= b.participated && forall k :: a.Cursor(k) <= b.Cursor(k)
  }

  // ----- One entry of the ledger, and a page of it -----

  /** `mine`: sent by this node; `mentions`: names this node, its role or its category. */
  datatype Entry = Entry(number: int, thread: Key, mine: bool, mentions: bool)

  predicate TargetsMe(w: Wake, e: Entry) { !e.mine && (e.thread in w.participated || e.mentions) }

  /** What is offered to the inbox and taken, in order. */
  datatype Post = Post(thread: Key, number: int)

  datatype Progress = Progress(wake: Wake, sent: seq<Post>, firstUndelivered: Option<int>)

  function SyncEntry(p: Progress, e: Entry, delivered: bool): Progress {
    if !TargetsMe(p.wake, e) || !p.wake.Peek(e.thread, e.number) then p
    else if delivered
      then Progress(p.wake.Commit(e.thread, e.number), p.sent + [Post(e.thread, e.number)], p.firstUndelivered)
    else
      p.(firstUndelivered :=
        if p.firstUndelivered.Some? && p.firstUndelivered.value <= e.number then p.firstUndelivered else Some(e.number))
  }

  function Delivers(deliveries: seq<bool>, i: nat): bool { i < |deliveries| && deliveries[i] }

  function SyncPage(w: Wake, page: seq<Entry>, deliveries: seq<bool>): Progress {
    if page == [] then Progress(w, [], None)
    else
      var n := |page| - 1;
      SyncEntry(SyncPage(w, page[..n], deliveries), page[n], Delivers(deliveries, n))
  }

  function SyncAdvanceTarget(firstUndelivered: Option<int>, latest: int): int {
    match firstUndelivered
    case Some(fail) => if fail - 1 <= latest then fail - 1 else latest
    case None => latest
  }

  function SyncOnce(w: Wake, page: seq<Entry>, latest: int, deliveries: seq<bool>): Wake {
    var p := SyncPage(w, page, deliveries);
    p.wake.Advance(SyncAdvanceTarget(p.firstUndelivered, latest))
  }

  // ----- The state changed in place -----

  class WorkerWakeState {
    var threads: map<Key, int>
    var participated: set<Key>
    var watermark: int

    ghost function View(): Wake
      reads this
    {
      Wake(threads, participated, watermark)
    }

    /** A missing or unreadable snapshot starts an empty account. */
    constructor LoadOrCreate(snapshot: Option<Snapshot>)
      ensures View() == (if snapshot.Some? then snapshot.value else EMPTY).Load()
    {
      var s := if snapshot.Some? then snapshot.value else EMPTY;
      threads, participated, watermark := s.threads, s.threads.Keys, s.watermark;
    }

    predicate Peek(k: Key, number: int)
      reads this
      ensures Peek(k, number) <==> View().Peek(k, number)
    {
      number > (if k in threads then threads[k] else 0)
    }

    method Commit(k: Key, number: int)
      modifies this
      ensures View() == old(View()).Commit(k, number)
    {
      var current := if k in threads then threads[k] else 0;
      if number > current {
        current := number;
      }
      threads := threads[k := current];
      participated := participated + {k};
    }

    method AdvanceWatermark(number: int)
      modifies this
      ensures View() == old(View()).Advance(number)
    {
      if number > watermark {
        watermark := number;
      }
    }

    /** The pull: filter, deliver, account, and move the watermark up to just
        before the first delivery that failed. */
    method WorkerSyncOnce(page: seq<Entry>, latest: int, deliveries: seq<bool>) returns (sent: seq<Post>)
      modifies this
      ensures View() == SyncOnce(old(View()), page, latest, deliveries)
      ensures sent == SyncPage(old(View()), page, deliveries).sent
    {
      sent := [];
      var firstUndelivered: Option<int> := None;
      for i := 0 to |page|
        invariant Progress(View(), sent, firstUndelivered) == SyncPage(old(View()), page[..i], deliveries)
      {
        var e := page[i];
        assert page[..i + 1][..i] == page[..i];
        if e.mine || !(e.thread in participated || e.mentions) {
          continue;
        }
        if !Peek(e.thread, e.number) {
          continue;
        }
        if Delivers(deliveries, i) {
          Commit(e.thread, e.number);
          sent := sent + [Post(e.thread, e.number)];
        } else {
          firstUndelivered := match firstUndelivered
            case Some(m) => Some(if m <= e.number then m else e.number)
            case None => Some(e.number);
        }
      }
      assert page[..|page|] == page;
      AdvanceWatermark(SyncAdvanceTarget(firstUndelivered, latest));
    }

    /** The push: a number not above the cursor is a duplicate; a failed delivery
        is not accounted, so that the pull can bring it again. */
    method HandleWakePost(k: Key, number: int, delivered: bool) returns (queued: bool)
      modifies this
      ensures queued <==> delivered && old(View()).Peek(k, number)
      ensures View() == if queued then old(View()).Commit(k, number) else old(View())
    {
      if !Peek(k, number) {
        return false;
      }
      if delivered {
        Commit(k, number);
      }
      queued := delivered;
    }
  }

  // ----- The master's reply -----

  /** The ledger is numbered in ascending order from above zero. */
  ghost predicate Ascending(ledger: seq<Entry>) {
    && (forall i :: 0 <= i < |ledger| ==> ledger[i].number > 0)
    && (forall i, j :: 0 <= i < j < |ledger| ==> ledger[i].number < ledger[j].number)
  }

  function Latest(ledger: seq<Entry>): int { if ledger == [] then 0 else ledger[|ledger| - 1].number }

  /** The entries behind `since`, in order. */
  function Newer(ledger: seq<Entry>, since: int): seq<Entry> {
    if ledger == [] then []
    else
      var last := ledger[|ledger| - 1];
      Newer(ledger[..|ledger| - 1], since) + if last.number > since then [last] else []
  }

  /** One page, read at `ledger`. */
  function Page(ledger: seq<Entry>, since: int): seq<Entry> {
    var all := Newer(ledger, since);
    if |all| <= BOARD_SYNC_PULL_LIMIT then all else all[..BOARD_SYNC_PULL_LIMIT]
  }

  /** The page holds everything up to the latest number that goes with it. */
  ghost predicate Complete(page: seq<Entry>, ledger: seq<Entry>, since: int) {
    forall e :: e in ledger && e.number > since ==> e in page
  }

  lemma {:induction false} NewerIsExact(ledger: seq<Entry>, since: int)
    ensures forall e :: e in Newer(ledger, since) <==> e in ledger && e.number > since
    ensures |Newer(ledger, since)| <= |ledger|
  {
    if ledger != [] {
      NewerIsExact(ledger[..|ledger| - 1], since);
      assert ledger == ledger[..|ledger| - 1] + [ledger[|ledger| - 1]];
    }
  }

  lemma {:induction false} NewerAscends(ledger: seq<Entry>, since: int)
    requires Ascending(ledger)
    ensures Ascending(Newer(ledger, since))
  {
    if ledger != [] {
      var before, last := ledger[..|ledger| - 1], ledger[|ledger| - 1];
      NewerAscends(before, since);
      NewerIsExact(before, since);
      var head := Newer(before, since);
      forall i | 0 <= i < |head| ensures head[i].number < last.number {
        assert head[i] in before;
      }
      hide Newer;
      AscendingSnoc(head, last);
    }
  }

  lemma AscendingSnoc(head: seq<Entry>, last: Entry)
    requires Ascending(head) && last.number > 0 && forall i :: 0 <= i < |head| ==> head[i].number < last.number
    ensures Ascending(head + [last])
  {
  }

  /** The page and the latest number are read one after the other: the reply is
      complete exactly when nothing was appended in between and the entries
      behind `since` fit on one page. */
  lemma CompleteIff(ledger: seq<Entry>, late: seq<Entry>, since: int)
    requires Ascending(ledger + late) && since <= Latest(ledger)
    ensures Complete(Page(ledger, since), ledger + late, since) <==>
      late == [] && |Newer(ledger, since)| <= BOARD_SYNC_PULL_LIMIT
  {
    NewerIsExact(ledger, since);
    NewerAscendsPart(ledger, late, since);
    var all := Newer(ledger, since);
    if late != [] {
      var e := late[0];
      assert e == (ledger + late)[|ledger|];
      assert e.number > since && e !in ledger;
      assert e !in Page(ledger, since);
    } else {
      assert ledger + late == ledger;
      if |all| > BOARD_SYNC_PULL_LIMIT {
        var e := all[BOARD_SYNC_PULL_LIMIT];
        assert e in ledger && e.number > since;
        assert e !in all[..BOARD_SYNC_PULL_LIMIT];
      }
    }
  }

  lemma NewerAscendsPart(ledger: seq<Entry>, late: seq<Entry>, since: int)
    requires Ascending(ledger + late) && since <= Latest(ledger)
    ensures Ascending(ledger) && Ascending(Newer(ledger, since))
    ensures late != [] ==> late[0].number > since && late[0] !in ledger
  {
    var both := ledger + late;
    assert forall i :: 0 <= i < |ledger| ==> both[i] == ledger[i];
    NewerAscends(ledger, since);
    if late != [] {
      assert both[|ledger|] == late[0];
      assert forall i :: 0 <= i < |ledger| ==> both[i].number < late[0].number;
      assert ledger == [] ==> late[0].number > 0;
    }
  }

  // ----- Runs -----

  /** `ledger` is the master's, `disk` the last snapshot written, `sent` what went
      to the inbox since the process started, `judged` every entry that a pull
      took to be for this node (history). A restart forgets the judgements above
      the restored watermark, because those entries will be pulled again. */
  datatype State = State(ledger: seq<Entry>, wake: Wake, disk: Snapshot, sent: seq<Post>, judged: set<Entry>)

  /** `saved` says which of the snapshots of the handler was the last to reach
      the disk, if any. */
  datatype Event =
    | Append(e: Entry)
    | WakePost(thread: Key, number: int, delivered: bool, saved: bool)
    | Sync(late: seq<Entry>, deliveries: seq<bool>, savedAt: Option<nat>)
    | Restart(readable: bool)

  function Init(): State { State([], EMPTY.Load(), EMPTY, [], {}) }

  ghost predicate Enabled(s: State, e: Event) {
    match e
    case Append(x) => x.number > Latest(s.ledger) && x.number > 0
    case WakePost(_, _, _, _) => true
    case Sync(late, _, _) => Ascending(s.ledger + late)
    case Restart(_) => true
  }

  /** The entries of the page that the pull takes to be for this node. */
  function Judged(w: Wake, page: seq<Entry>, deliveries: seq<bool>): set<Entry> {
    if page == [] then {}
    else
      var n := |page| - 1;
      Judged(w, page[..n], deliveries)
      + if TargetsMe(SyncPage(w, page[..n], deliveries).wake, page[n]) then {page[n]} else {}
  }

  function Apply(s: State, e: Event): State {
    match e
    case Append(x) => s.(ledger := s.ledger + [x])
    case WakePost(k, number, delivered, saved) =>
      if !delivered || !s.wake.Peek(k, number) then s
      else
        var w := s.wake.Commit(k, number);
        s.(wake := w, disk := if saved then w.Saved() else s.disk, sent := s.sent + [Post(k, number)])
    case Sync(late, deliveries, saved) =>
      var page := Page(s.ledger, s.wake.watermark);
      var ledger := s.ledger + late;
      var p := SyncPage(s.wake, page, deliveries);
      var w := SyncOnce(s.wake, page, Latest(ledger), deliveries);
      State(ledger, w, SavedBy(s, page, w, deliveries, saved), s.sent + p.sent,
        s.judged + Judged(s.wake, page, deliveries))
    case Restart(readable) =>
      var snapshot := if readable then s.disk else EMPTY;
      s.(wake := snapshot.Load(), disk := snapshot, sent := [],
         judged := set x | x in s.judged && x.number <= snapshot.watermark)
  }

  /** The disk after a pull: unchanged, a state within the loop, or the last. */
  function SavedBy(s: State, page: seq<Entry>, w: Wake, deliveries: seq<bool>, saved: Option<nat>): Snapshot {
    match saved
    case None => s.disk
    case Some(m) => if m <= |page| then SyncPage(s.wake, page[..m], deliveries).wake.Saved() else w.Saved()
  }

  ghost function Step(s: State, e: Event): State { if Enabled(s, e) then Apply(s, e) else s }

  ghost function Run(es: seq<Event>): State {
    if es == [] then Init() else Step(Run(es[..|es| - 1]), es[|es| - 1])
  }

  // ----- One pull -----

  lemma {:induction false} PageMovesForward(w: Wake, page: seq<Entry>, deliveries: seq<bool>)
    ensures AtMost(w, SyncPage(w, page, deliveries).wake)
    ensures SyncPage(w, page, deliveries).wake.watermark == w.watermark
    ensures w.participated == w.threads.Keys ==>
      SyncPage(w, page, deliveries).wake.participated == SyncPage(w, page, deliveries).wake.threads.Keys
  {
    if page != [] {
      PageMovesForward(w, page[..|page| - 1], deliveries);
    }
  }

  /** An entry that the pull took to be for this node has been passed by its
      cursor, or holds the watermark back. */
  lemma {:induction false} JudgedIsCovered(w: Wake, page: seq<Entry>, deliveries: seq<bool>, e: Entry)
    requires e in Judged(w, page, deliveries)
    ensures var p := SyncPage(w, page, deliveries);
      && (p.wake.Cursor(e.thread) >= e.number || (p.firstUndelivered.Some? && p.firstUndelivered.value <= e.number))
      && TargetsMe(p.wake, e)
    ensures e in page
  {
    var n := |page| - 1;
    assert page == page[..n] + [page[n]];
    if e in Judged(w, page[..n], deliveries) {
      JudgedIsCovered(w, page[..n], deliveries, e);
    }
  }

  /** What is for this node before the pull is judged so during it. */
  lemma {:induction false} TargetIsJudged(w: Wake, page: seq<Entry>, deliveries: seq<bool>, e: Entry)
    requires e in page && TargetsMe(w, e)
    ensures e in Judged(w, page, deliveries)
  {
    var n := |page| - 1;
    assert page == page[..n] + [page[n]];
    if e in page[..n] {
      TargetIsJudged(w, page[..n], deliveries, e);
    } else {
      PageMovesForward(w, page[..n], deliveries);
    }
  }

  /** After the pull, a judged entry at or below the new watermark but above the
      old one is covered by its cursor. */
  lemma PullCovers(w: Wake, page: seq<Entry>, latest: int, deliveries: seq<bool>, e: Entry)
    requires e in Judged(w, page, deliveries) && e.number > w.watermark
    ensures e.number <= SyncOnce(w, page, latest, deliveries).watermark ==>
      SyncOnce(w, page, latest, deliveries).Cursor(e.thread) >= e.number
  {
    JudgedIsCovered(w, page, deliveries, e);
    PageMovesForward(w, page, deliveries);
    hide SyncPage, Judged;
  }

  // ----- Invariant -----

  ghost predicate Covers(w: Wake, e: Entry) { e.number <= w.watermark ==> w.Cursor(e.thread) >= e.number }

  ghost predicate CoveredIn(s: State, e: Entry) { Covers(s.wake, e) && Covers(s.disk.Load(), e) }

  /** A judged entry is covered live and on disk; above the watermark it will be
      judged the same again. */
  ghost predicate JudgedOk(s: State, e: Entry) {
    e in s.ledger && CoveredIn(s, e) && (e.number > s.wake.watermark ==> TargetsMe(s.wake, e))
  }

  ghost predicate Shape(s: State) {
    && Ascending(s.ledger) && 0 <= s.disk.watermark
    && s.wake.watermark <= Latest(s.ledger)
    && AtMost(s.disk.Load(), s.wake) && s.wake.participated == s.wake.threads.Keys
    && (forall k :: s.disk.Load().Cursor(k) >= 0)
  }

  /** Per thread, what was sent is ascending and not above the cursor. */
  ghost predicate SentOk(sent: seq<Post>, w: Wake) {
    && (forall i, j :: 0 <= i < j < |sent| && sent[i].thread == sent[j].thread ==> sent[i].number < sent[j].number)
    && (forall i :: 0 <= i < |sent| ==> sent[i].number <= w.Cursor(sent[i].thread))
  }

  lemma SentGrows(sent: seq<Post>, w: Wake, k: Key, number: int)
    requires SentOk(sent, w) && w.Peek(k, number)
    ensures SentOk(sent + [Post(k, number)], w.Commit(k, number))
  {
  }

  lemma {:induction false} SentOverPage(sent: seq<Post>, w: Wake, page: seq<Entry>, deliveries: seq<bool>)
    requires SentOk(sent, w)
    ensures SentOk(sent + SyncPage(w, page, deliveries).sent, SyncPage(w, page, deliveries).wake)
  {
    hide SentOk;
    if page == [] {
      assert sent + [] == sent;
    } else {
      var n := |page| - 1;
      SentOverPage(sent, w, page[..n], deliveries);
      var p, e := SyncPage(w, page[..n], deliveries), page[n];
      if TargetsMe(p.wake, e) && p.wake.Peek(e.thread, e.number) && Delivers(deliveries, n) {
        SentGrows(sent + p.sent, p.wake, e.thread, e.number);
        assert sent + p.sent + [Post(e.thread, e.number)] == sent + (p.sent + [Post(e.thread, e.number)]);
      }
    }
  }

  lemma CoversStays(a: Wake, b: Wake, e: Entry)
    requires Covers(a, e) && AtMost(a, b) && (e.number <= a.watermark || b.watermark == a.watermark)
    ensures Covers(b, e)
  {
  }

  /** What a pull leaves on disk lies between the old disk and the live state. */
  lemma SavedBetween(s: State, late: seq<Entry>, deliveries: seq<bool>, saved: Option<nat>)
    requires Shape(s)
    ensures var t := Apply(s, Sync(late, deliveries, saved));
      && AtMost(s.disk.Load(), t.disk.Load()) && AtMost(t.disk.Load(), t.wake) && AtMost(s.wake, t.wake)
      && t.wake.participated == t.wake.threads.Keys
      && (t.disk == s.disk || (t.disk.watermark == s.wake.watermark && AtMost(s.wake, t.disk.Load()))
          || t.disk == t.wake.Saved())
  {
    var page := Page(s.ledger, s.wake.watermark);
    PageMovesForward(s.wake, page, deliveries);
    if saved.Some? && saved.value <= |page| {
      PageMovesForward(s.wake, page[..saved.value], deliveries);
      PrefixBehind(s.wake, page, deliveries, saved.value);
    }
    hide SyncPage, Page, Ascending, Judged, Latest;
  }

  lemma {:induction false} PrefixBehind(w: Wake, page: seq<Entry>, deliveries: seq<bool>, m: nat)
    requires m <= |page|
    ensures AtMost(SyncPage(w, page[..m], deliveries).wake, SyncPage(w, page, deliveries).wake)
    decreases |page|
  {
    if m == |page| {
      assert page[..m] == page;
    } else {
      PrefixBehind(w, page[..|page| - 1], deliveries, m);
      assert page[..|page| - 1][..m] == page[..m];
    }
  }

  // ----- Every step keeps it -----

  lemma LatestGrows(ledger: seq<Entry>, late: seq<Entry>)
    requires Ascending(ledger + late)
    ensures 0 <= Latest(ledger) <= Latest(ledger + late)
  {
    var both := ledger + late;
    assert ledger != [] ==> both[|ledger| - 1] == ledger[|ledger| - 1];
  }

  lemma CommitMovesForward(w: Wake, k: Key, number: int)
    requires w.participated == w.threads.Keys
    ensures var c := w.Commit(k, number);
      && AtMost(w, c) && c.participated == c.threads.Keys && c.Saved().Load() == c
  {
  }

  lemma WakeShape(s: State, e: Event)
    requires Shape(s) && e.WakePost?
    ensures Shape(Apply(s, e))
  {
    var c := s.wake.Commit(e.thread, e.number);
    CommitMovesForward(s.wake, e.thread, e.number);
    assert forall j :: s.disk.Load().Cursor(j) <= s.wake.Cursor(j) <= c.Cursor(j);
    hide Page, Ascending, Latest;
  }

  lemma AppendShape(s: State, e: Event)
    requires Shape(s) && Enabled(s, e) && e.Append?
    ensures Shape(Apply(s, e))
  {
    hide Page, AtMost;
  }

  lemma SyncShape(s: State, e: Event)
    requires Shape(s) && Enabled(s, e) && e.Sync?
    ensures Shape(Apply(s, e))
  {
    SavedBetween(s, e.late, e.deliveries, e.savedAt);
    LatestGrows(s.ledger, e.late);
    PageMovesForward(s.wake, Page(s.ledger, s.wake.watermark), e.deliveries);
    assert forall k :: 0 <= s.disk.Load().Cursor(k) <= Apply(s, e).disk.Load().Cursor(k);
    hide Page, SyncPage, Ascending, Latest, SavedBy, Judged;
  }

  lemma RestartShape(s: State, e: Event)
    requires Shape(s) && e.Restart?
    ensures Shape(Apply(s, e))
  {
    LatestGrows(s.ledger, []);
    assert s.ledger + [] == s.ledger;
    hide Page, Ascending, Latest;
  }

  lemma StepShape(s: State, e: Event)
    requires Shape(s) && Enabled(s, e)
    ensures Shape(Apply(s, e))
  {
    match e
    case Append(_) => AppendShape(s, e); hide *;
    case WakePost(_, _, _, _) => WakeShape(s, e); hide *;
    case Sync(_, _, _) => SyncShape(s, e); hide *;
    case Restart(_) => RestartShape(s, e); hide *;
  }

  lemma StepSent(s: State, e: Event)
    requires SentOk(s.sent, s.wake) && Enabled(s, e)
    ensures SentOk(Apply(s, e).sent, Apply(s, e).wake)
  {
    match e
    case Append(_) =>
    case WakePost(k, number, delivered, _) =>
      if delivered && s.wake.Peek(k, number) {
        SentGrows(s.sent, s.wake, k, number);
      }
      hide SentOk;
    case Sync(late, deliveries, _) =>
      SentOverPage(s.sent, s.wake, Page(s.ledger, s.wake.watermark), deliveries);
      hide Page, SyncPage, SavedBy, Judged;
    case Restart(_) =>
  }

  /** The reply of a pull, if this is one, holds all that is newer. */
  ghost predicate Whole(s: State, e: Event) {
    e.Sync? ==> Complete(Page(s.ledger, s.wake.watermark), s.ledger + e.late, s.wake.watermark)
  }

  /** An entry that is for this node before a complete pull is covered after it. */
  lemma PulledIsCovered(s: State, e: Event, x: Entry)
    requires Shape(s) && Enabled(s, e) && e.Sync? && Whole(s, e)
    requires x in s.ledger + e.late && TargetsMe(s.wake, x)
    requires CoveredIn(s, x) || x.number > s.wake.watermark
    ensures CoveredIn(Apply(s, e), x)
  {
    var page := Page(s.ledger, s.wake.watermark);
    if x.number > s.wake.watermark {
      TargetIsJudged(s.wake, page, e.deliveries, x);
    }
    JudgedNowIsCovered(s, e, x);
  }

  lemma JudgedNowIsCovered(s: State, e: Event, x: Entry)
    requires Shape(s) && Enabled(s, e) && e.Sync?
    requires CoveredIn(s, x) || x.number > s.wake.watermark
    requires x.number > s.wake.watermark ==> x in Judged(s.wake, Page(s.ledger, s.wake.watermark), e.deliveries)
    ensures CoveredIn(Apply(s, e), x)
  {
    var page := Page(s.ledger, s.wake.watermark);
    SavedBetween(s, e.late, e.deliveries, e.savedAt);
    if x.number > s.wake.watermark {
      PullCovers(s.wake, page, Latest(s.ledger + e.late), e.deliveries, x);
    } else {
      CoversStays(s.wake, Apply(s, e).wake, x);
    }
    hide Page, SyncPage, Judged, SavedBy, Latest, Ascending;
  }

  lemma StepJudged(s: State, e: Event, x: Entry)
    requires Shape(s) && Enabled(s, e) && Whole(s, e)
    requires forall y :: y in s.judged ==> JudgedOk(s, y)
    requires x in Apply(s, e).judged
    ensures JudgedOk(Apply(s, e), x)
  {
    match e
    case Append(_) => assert JudgedOk(s, x);
    case WakePost(k, number, _, _) => assert JudgedOk(s, x); CoversStays(s.wake, s.wake.Commit(k, number), x);
    case Sync(late, deliveries, _) => SyncJudged(s, e, x);
    case Restart(_) => assert JudgedOk(s, x);
  }

  lemma SyncJudged(s: State, e: Event, x: Entry)
    requires Shape(s) && Enabled(s, e) && Whole(s, e) && e.Sync?
    requires x in s.judged ==> JudgedOk(s, x)
    requires x in Apply(s, e).judged
    ensures JudgedOk(Apply(s, e), x)
  {
    var page := Page(s.ledger, s.wake.watermark);
    PageInLedger(s.ledger, s.wake.watermark);
    PageMovesForward(s.wake, page, e.deliveries);
    if x in s.judged {
      if x.number > s.wake.watermark {
        PulledIsCovered(s, e, x);
      } else {
        JudgedNowIsCovered(s, e, x);
      }
    } else {
      JudgedIsCovered(s.wake, page, e.deliveries, x);
      JudgedNowIsCovered(s, e, x);
    }
    hide Page, SyncPage, Judged, SavedBy, Latest, Ascending, Complete, CoveredIn;
  }

  lemma PageInLedger(ledger: seq<Entry>, since: int)
    ensures forall e :: e in Page(ledger, since) ==> e in ledger && e.number > since
  {
    NewerIsExact(ledger, since);
    var all := Newer(ledger, since);
    forall e | e in Page(ledger, since) ensures e in all {
    }
  }

  ghost predicate Mentioned(s: State, x: Entry) { x in s.ledger && x.mentions && !x.mine }

  lemma StepMentions(s: State, e: Event, x: Entry)
    requires Shape(s) && Enabled(s, e) && Whole(s, e)
    requires forall y :: Mentioned(s, y) ==> CoveredIn(s, y)
    requires Mentioned(Apply(s, e), x)
    ensures CoveredIn(Apply(s, e), x)
  {
    match e
    case Append(_) => assert x in s.ledger ==> Mentioned(s, x);
    case WakePost(k, number, _, _) =>
      assert Mentioned(s, x);
      CoversStays(s.wake, s.wake.Commit(k, number), x);
    case Sync(late, _, _) =>
      if x in s.ledger {
        assert Mentioned(s, x);
      } else {
        LateIsNewer(s.ledger, late, x);
      }
      PulledIsCovered(s, e, x);
    case Restart(_) => assert Mentioned(s, x);
  }

  lemma LateIsNewer(ledger: seq<Entry>, late: seq<Entry>, x: Entry)
    requires Ascending(ledger + late) && x in late
    ensures x.number > Latest(ledger)
  {
    var both := ledger + late;
    var i :| 0 <= i < |late| && late[i] == x;
    assert both[|ledger| + i] == x;
    assert ledger != [] ==> both[|ledger| - 1] == ledger[|ledger| - 1];
  }

  // ----- Whole runs -----

  /** Every pull of the run got a complete reply. */
  ghost predicate WholeRun(es: seq<Event>) {
    forall k :: 0 <= k < |es| ==> Whole(Run(es[..k]), es[k])
  }

  lemma {:induction false} RunShape(es: seq<Event>)
    ensures Shape(Run(es)) && SentOk(Run(es).sent, Run(es).wake)
  {
    hide Apply, Enabled, Shape, SentOk;
    if es == [] {
      InitShape();
    } else {
      var before, e := es[..|es| - 1], es[|es| - 1];
      RunShape(before);
      if Enabled(Run(before), e) {
        StepShape(Run(before), e);
        StepSent(Run(before), e);
      }
    }
  }

  lemma InitShape()
    ensures Shape(Init()) && SentOk(Init().sent, Init().wake)
  {
  }

  lemma PrefixWhole(es: seq<Event>)
    requires WholeRun(es) && es != []
    ensures WholeRun(es[..|es| - 1]) && Whole(Run(es[..|es| - 1]), es[|es| - 1])
  {
    hide Run, Whole;
    var before := es[..|es| - 1];
    forall k | 0 <= k < |before| ensures Whole(Run(before[..k]), before[k]) {
      assert before[..k] == es[..k];
    }
  }

  /** With complete replies, no entry for this node below the watermark is ahead
      of its thread's cursor: neither one that names the node, nor one that a pull
      judged to be for it; and the same holds for the snapshot on disk. */
  lemma {:induction false} NothingIsPassedOver(es: seq<Event>, x: Entry)
    requires WholeRun(es)
    ensures Mentioned(Run(es), x) ==> CoveredIn(Run(es), x)
    ensures x in Run(es).judged ==> JudgedOk(Run(es), x)
  {
    hide Apply, Enabled, Shape, Whole, JudgedOk, CoveredIn;
    if es != [] {
      var before, e := es[..|es| - 1], es[|es| - 1];
      PrefixWhole(es);
      RunShape(before);
      forall y ensures Mentioned(Run(before), y) ==> CoveredIn(Run(before), y)
               ensures y in Run(before).judged ==> JudgedOk(Run(before), y)
      {
        NothingIsPassedOver(before, y);
      }
      if Enabled(Run(before), e) {
        if Mentioned(Run(es), x) {
          StepMentions(Run(before), e, x);
        }
        if x in Run(es).judged {
          StepJudged(Run(before), e, x);
        }
      }
    }
  }

  /** While the process lives, cursors, participation and watermark never go back. */
  lemma NeverBackwards(es: seq<Event>, e: Event)
    requires Enabled(Run(es), e) && !e.Restart?
    ensures AtMost(Run(es).wake, Run(es + [e]).wake)
  {
    RunShape(es);
    assert (es + [e])[..|es|] == es;
    if e.Sync? {
      SavedBetween(Run(es), e.late, e.deliveries, e.savedAt);
    }
    hide Run, Page, SyncPage, SavedBy, Judged;
  }

  /** A restart gives a state that is nowhere ahead of the one it replaces. */
  lemma RestoredIsBehind(es: seq<Event>, readable: bool)
    ensures AtMost(Run(es + [Restart(readable)]).wake, Run(es).wake)
  {
    RunShape(es);
    assert (es + [Restart(readable)])[..|es|] == es;
    hide Run, Page, SyncPage, SavedBy, Judged, Ascending, Latest;
  }

  /** Between restarts, the numbers handed to the inbox for one thread ascend
      strictly: nothing is handed over twice, be it pushed or pulled. */
  lemma SentAscends(es: seq<Event>, i: nat, j: nat)
    requires i < j < |Run(es).sent| && Run(es).sent[i].thread == Run(es).sent[j].thread
    ensures Run(es).sent[i].number < Run(es).sent[j].number
  {
    RunShape(es);
    hide Run, Shape;
  }

  // ----- What does not hold -----

  /** Entries 1, 2, ..., n of one thread; only the one just behind the first page
      names this node. */
  function Backlog(n: nat): seq<Entry> {
    if n == 0 then [] else Backlog(n - 1) + [Entry(n, "t", false, n == BOARD_SYNC_PULL_LIMIT + 1)]
  }

  function Appends(n: nat): seq<Event> {
    if n == 0 then [] else Appends(n - 1) + [Append(Entry(n, "t", false, n == BOARD_SYNC_PULL_LIMIT + 1))]
  }

  lemma {:induction false} BacklogIs(n: nat)
    ensures |Backlog(n)| == n && forall i :: 0 <= i < n ==>
      Backlog(n)[i] == Entry(i + 1, "t", false, i == BOARD_SYNC_PULL_LIMIT)
    ensures Latest(Backlog(n)) == n
  {
    if n > 0 {
      BacklogIs(n - 1);
    }
  }

  lemma {:induction false} BacklogIsNewer(n: nat)
    ensures Newer(Backlog(n), 0) == Backlog(n)
  {
    if n > 0 {
      BacklogIsNewer(n - 1);
      BacklogStep(n);
      assert Backlog(n)[..|Backlog(n)| - 1] == Backlog(n - 1);
      hide Backlog;
    }
  }

  lemma {:induction false} RunAppends(n: nat)
    ensures Run(Appends(n)) == Init().(ledger := Backlog(n))
  {
    if n > 0 {
      RunAppends(n - 1);
      BacklogIs(n - 1);
      assert Appends(n)[..|Appends(n)| - 1] == Appends(n - 1);
      hide Page, Backlog, Latest;
      assert Backlog(n) == Backlog(n - 1) + [Entry(n, "t", false, n == BOARD_SYNC_PULL_LIMIT + 1)]
        by { BacklogStep(n); }
    }
  }

  lemma BacklogStep(n: nat)
    requires n > 0
    ensures Backlog(n) == Backlog(n - 1) + [Entry(n, "t", false, n == BOARD_SYNC_PULL_LIMIT + 1)]
  {
  }

  lemma {:induction false} NothingForMe(w: Wake, page: seq<Entry>, deliveries: seq<bool>)
    requires forall e :: e in page ==> !TargetsMe(w, e)
    ensures SyncPage(w, page, deliveries) == Progress(w, [], None)
  {
    if page != [] {
      NothingForMe(w, page[..|page| - 1], deliveries);
    }
  }

  /** One pull with nothing appended in between and nothing saved. */
  lemma PlainPull(es: seq<Event>, deliveries: seq<bool>)
    requires Ascending(Run(es).ledger)
    ensures var s, t := Run(es), Run(es + [Sync([], deliveries, None)]);
      var p := SyncPage(s.wake, Page(s.ledger, s.wake.watermark), deliveries);
      && t.ledger == s.ledger && t.sent == s.sent + p.sent
      && t.wake == p.wake.Advance(SyncAdvanceTarget(p.firstUndelivered, Latest(s.ledger)))
  {
    var e := Sync([], deliveries, None);
    assert (es + [e])[..|es|] == es;
    assert Run(es).ledger + [] == Run(es).ledger;
    hide Page, SyncPage, Judged, Latest, SavedBy, Ascending;
  }

  /** A backlog of one more than a page: the pull moves the watermark past the
      last entry without having seen it, although it names this node. */
  lemma TruncatedPagePassesOver()
    ensures var s := Run(Appends(BOARD_SYNC_PULL_LIMIT + 1) + [Sync([], [], None)]);
      exists x :: Mentioned(s, x) && !Covers(s.wake, x)
  {
    var n := BOARD_SYNC_PULL_LIMIT + 1;
    var es, ledger, x := Appends(n), Backlog(n), Entry(n, "t", false, true);
    RunAppends(n);
    BacklogIs(n);
    BacklogAscends(n);
    assert ledger[n - 1] == x;
    PageOfBacklog();
    NothingForMe(Init().wake, Page(ledger, 0), []);
    PlainPull(es, []);
    hide Run, Page, SyncPage, Backlog, Appends, Newer, Judged, Latest, Ascending;
    var s := Run(es + [Sync([], [], None)]);
    assert s.wake == Init().wake.Advance(n);
    assert Mentioned(s, x) && !Covers(s.wake, x);
  }

  lemma BacklogAscends(n: nat)
    ensures Ascending(Backlog(n))
  {
    BacklogIs(n);
    hide Backlog;
  }

  lemma PageOfBacklog()
    ensures forall e :: e in Page(Backlog(BOARD_SYNC_PULL_LIMIT + 1), 0) ==> !e.mentions
  {
    var ledger := Backlog(BOARD_SYNC_PULL_LIMIT + 1);
    BacklogIs(BOARD_SYNC_PULL_LIMIT + 1);
    BacklogIsNewer(BOARD_SYNC_PULL_LIMIT + 1);
    var page := ledger[..BOARD_SYNC_PULL_LIMIT];
    hide Backlog;
    assert Page(ledger, 0) == page;
    forall e | e in page ensures !e.mentions {
      var i :| 0 <= i < |page| && page[i] == e;
      assert ledger[i] == e;
    }
  }

  const FIRST := Entry(1, "t", false, true)
  const SECOND := Entry(2, "t", false, true)

  /** To be covered is not to be delivered: an entry fails, a later one of its thread
      goes through on the same page, and the next pull takes the first one for a
      duplicate. */
  lemma FailedEntryIsDropped()
    ensures var s := Run([Append(FIRST), Append(SECOND), Sync([], [false, true], None), Sync([], [true, true], None)]);
      && Mentioned(s, FIRST) && s.wake.watermark >= FIRST.number
      && Post("t", 1) !in s.sent && Post("t", 2) in s.sent
  {
    var e2 := [Append(FIRST), Append(SECOND)];
    var e3 := e2 + [Sync([], [false, true], None)];
    TwoAppended();
    FirstPull();
    SecondPull();
    PlainPull(e2, [false, true]);
    assert Run(e3).wake == Wake(map["t" := 2], {"t"}, 0) && Run(e3).sent == [] + [Post("t", 2)];
    PlainPull(e3, [true, true]);
    assert [Append(FIRST), Append(SECOND), Sync([], [false, true], None), Sync([], [true, true], None)] ==
      e3 + [Sync([], [true, true], None)];
    hide Run, Page, SyncPage, Judged, SavedBy;
  }

  lemma TwoAppended()
    ensures Run([Append(FIRST), Append(SECOND)]) == Init().(ledger := [FIRST, SECOND])
  {
    var es := [Append(FIRST), Append(SECOND)];
    assert es[..1] == [Append(FIRST)] && es[..1][..0] == [];
    assert Run(es[..0]) == Init();
    assert Run(es[..1]) == Init().(ledger := [FIRST]);
  }

  lemma PageOfTwo()
    ensures Page([FIRST, SECOND], 0) == [FIRST, SECOND]
  {
    assert [FIRST, SECOND][..1] == [FIRST] && [FIRST][..0] == [];
    assert Newer([FIRST], 0) == [FIRST];
  }

  lemma SyncTwo(w: Wake, a: bool, b: bool)
    ensures SyncPage(w, [FIRST, SECOND], [a, b]) == SyncEntry(SyncEntry(Progress(w, [], None), FIRST, a), SECOND, b)
  {
    assert [FIRST, SECOND][..1] == [FIRST] && [FIRST][..0] == [];
    assert SyncPage(w, [FIRST], [a, b]) == SyncEntry(Progress(w, [], None), FIRST, a);
  }

  lemma FirstPull()
    ensures var p := SyncPage(EMPTY.Load(), Page([FIRST, SECOND], 0), [false, true]);
      p == Progress(Wake(map["t" := 2], {"t"}, 0), [Post("t", 2)], Some(1))
  {
    PageOfTwo();
    SyncTwo(EMPTY.Load(), false, true);
    hide Page, SyncPage;
  }

  lemma SecondPull()
    ensures SyncPage(Wake(map["t" := 2], {"t"}, 0), Page([FIRST, SECOND], 0), [true, true])
      == Progress(Wake(map["t" := 2], {"t"}, 0), [], None)
  {
    PageOfTwo();
    SyncTwo(Wake(map["t" := 2], {"t"}, 0), true, true);
    hide Page, SyncPage;
  }
}
