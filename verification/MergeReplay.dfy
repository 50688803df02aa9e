/** The merge registry and the store as the program changes them in place, and the
    replay loop that works a thawed project's queue off. */
module MergeReplay {
  import opened Wrappers
  import opened MergeTrigger

  /** What one entry meets: whether its issue and the base of its dispatch can be
      read, and what git says. */
  datatype Meets = Meets(readable: bool, based: bool, result: MergeResult)

  /** What becomes of one queued placement; an unreadable issue parks it. */
  function EndingAt(b: Board, l: Ledger, p: nat, m: Meets): Ending
    requires p < |l.placements|
  {
    var t := l.placements[p].task;
    if !m.readable then Parks
    else EndingOf(l.placements[p].changeset, if m.based && t in b.base then Some(b.base[t]) else None, ByHand(m.result))
  }

  ghost predicate AllKnown(b: Board, l: Ledger, q: seq<nat>) {
    forall i :: 0 <= i < |q| ==> Known(b, l, q[i])
  }

  /** The ledger after the first `n` entries of queue `q`, entry `i` meeting
      `meets(i)`. */
  ghost function Worked(b: Board, l: Ledger, q: seq<nat>, meets: nat -> Meets, n: nat): (m: Ledger)
    requires n <= |q| && AllKnown(b, l, q)
    ensures m.placements == l.placements && |m.places| == |l.places|
  {
    if n == 0 then l
    else Concluded(Worked(b, l, q, meets, n - 1), q[n - 1], EndingAt(b, l, q[n - 1], meets(n - 1)))
  }

  /** The first `n` entries met no conflict. */
  ghost predicate NoClash(b: Board, l: Ledger, q: seq<nat>, meets: nat -> Meets, n: nat)
    requires n <= |q| && AllKnown(b, l, q)
  {
    forall i :: 0 <= i < n ==> !EndingAt(b, l, q[i], meets(i)).Refreezes?
  }

  /** The tasks merged among the first `n` entries are on the merged list. */
  ghost predicate Listed(merged: set<nat>, b: Board, l: Ledger, q: seq<nat>, meets: nat -> Meets, n: nat)
    requires n <= |q| && AllKnown(b, l, q)
  {
    forall i :: 0 <= i < n && PlaceAfter(EndingAt(b, l, q[i], meets(i))) == MergedIn ==>
      l.placements[q[i]].task in merged
  }

  /** How a replay ends. */
  datatype Outcome =
    | NotStarted    // stopped, no directory, or the project is not frozen
    | CommitFailed  // thawed, but the manual resolution could not be committed
    | Drained
    | Refrozen      // an entry met a conflict
    | PopFailed     // the queue could not be read

  /** The board behind one entry. */
  function BoardAfter(c: Board, l: Ledger, p: nat, ending: Ending): Board
    requires p < |l.placements|
  {
    if PlaceAfter(ending) == MergedIn then c.Merged(l.placements[p].task) else c
  }

  /** A board with the same dispatches, bases and registry, and no fewer merges. */
  ghost predicate OnlyMerges(b: Board, c: Board) {
    c.placed == b.placed && c.base == b.base && c.dispatch == b.dispatch && c.owed == b.owed && b.merged <= c.merged
  }

  class MergeStore {
    var board: Board
    var projects: Projects
    var ledger: Ledger

    constructor (b: Board, j: Projects, l: Ledger)
      ensures board == b && projects == j && ledger == l
    {
      board, projects, ledger := b, j, l;
    }

    /** A registration replaces the task's earlier one; the other tasks keep theirs. */
    method RegisterPlaced(t: nat, p: nat)
      modifies this`board
      ensures board == old(board).Register(t, p)
      ensures forall x :: board.Registered(x) == if x == t then Some(p) else old(board).Registered(x)
    {
      board := board.(placed := board.placed[t := p]);
    }

    /** Of any number of callers the first gets the placement: whoever comes after
        finds nothing, until the task is registered again. */
    method TakePlaced(t: nat) returns (p: Option<nat>)
      modifies this`board
      ensures p == old(board).Registered(t)
      ensures board == old(board).Without(t)
      ensures forall x :: board.Registered(x) == if x == t then None else old(board).Registered(x)
    {
      p := if t in board.placed then Some(board.placed[t]) else None;
      board := board.(placed := board.placed - {t});
    }

    /** A task that is queued already is not queued again. */
    method AppendPendingMerge(j: nat, p: nat)
      requires p < |ledger.placements|
      modifies this`projects
      ensures projects ==
        if HasTask(ledger, Queue(old(projects).queues, j), ledger.placements[p].task) then old(projects)
        else Enqueued(old(projects), j, p)
    {
      if !HasTask(ledger, Queue(projects.queues, j), ledger.placements[p].task) {
        projects := Enqueued(projects, j, p);
      }
    }

    method PopPendingMerge(j: nat) returns (p: Option<nat>)
      modifies this`projects
      ensures var q := Queue(old(projects).queues, j);
        if q == [] then p == None && projects == old(projects)
        else p == Some(q[0]) && projects == Dequeued(old(projects), j)
      ensures Queue(old(projects).queues, j) != [] ==>
        Queue(projects.queues, j) == Queue(old(projects).queues, j)[1..] && projects.frozen == old(projects).frozen
    {
      var q := Queue(projects.queues, j);
      if q == [] {
        return None;
      }
      p := Some(q[0]);
      projects := Dequeued(projects, j);
    }

    /** One entry: the decision, its effect on the ledger, the merged list and the
        freeze mark. */
    method ReplayOnePending(j: nat, p: nat, m: Meets) returns (ending: Ending)
      requires Known(board, ledger, p)
      modifies this
      ensures ending == EndingAt(old(board), old(ledger), p, m)
      ensures ledger == Concluded(old(ledger), p, ending)
      ensures projects == Frozen(old(projects), j, ending)
      ensures board == BoardAfter(old(board), old(ledger), p, ending)
      ensures !ending.HandsOver? && OnlyMerges(old(board), board)
    {
      ending := EndingAt(board, ledger, p, m);
      ledger := Concluded(ledger, p, ending);
      projects := Frozen(projects, j, ending);
      if PlaceAfter(ending) == MergedIn {
        board := board.(merged := board.merged + {ledger.placements[p].task});
      }
    }

    /** Thaw the project and work its queue off: entry by entry from the front,
        until the queue is empty, cannot be read, or a conflict freezes the project
        again. What was handled is a prefix of the queue, the rest stays as it was;
        a rest in a project that is not frozen is left only when the commit or a pop
        failed, or the freeze mark could not be set. */
    method ReplayPendingMerges(j: nat, allowed: bool, commits: bool, pops: nat -> bool, meets: nat -> Meets)
        returns (outcome: Outcome, n: nat)
      requires AllKnown(board, ledger, Queue(projects.queues, j))
      modifies this
      ensures outcome.NotStarted? <==> !allowed || j !in old(projects).frozen
      ensures outcome.NotStarted? ==>
        n == 0 && board == old(board) && projects == old(projects) && ledger == old(ledger)
      ensures outcome.CommitFailed? <==> allowed && j in old(projects).frozen && !commits
      ensures outcome.CommitFailed? ==> n == 0
      ensures var q := Queue(old(projects).queues, j);
        Handled(old(board), old(ledger), q, meets, n, outcome.Refrozen?, board, ledger)
      ensures Queue(projects.queues, j) == Queue(old(projects).queues, j)[n..]
      ensures outcome.Drained? ==> Queue(projects.queues, j) == []
      ensures outcome.PopFailed? ==> !pops(n)
      ensures !outcome.NotStarted? ==> (j in projects.frozen <==> outcome.Refrozen? && Marks(meets(n - 1).result))
      ensures OnlyMerges(old(board), board)
    {
      n := 0;
      ghost var b, l, q := board, ledger, Queue(projects.queues, j);
      hide EndingAt, BoardAfter, Concluded, PlaceAfter, Frozen, Queue, Dequeued, Known, AllKnown;
      hide SoFar, Handled, OnlyMerges;
      NothingYet(b, l, q, meets);
      SoFarIsHandled(b, l, q, meets, n, board, ledger);
      if !allowed || j !in projects.frozen {
        return NotStarted, 0;
      }
      projects := projects.(frozen := projects.frozen - {j});
      if !commits {
        return CommitFailed, 0;
      }
      outcome := Drained;
      while true
        invariant n <= |q| && Queue(projects.queues, j) == q[n..] && j !in projects.frozen && outcome.Drained?
        invariant SoFar(b, l, q, meets, n, board, ledger)
        decreases |q| - n
      {
        SoFarIsHandled(b, l, q, meets, n, board, ledger);
        if !pops(n) {
          return PopFailed, n;
        }
        var entry := PopPendingMerge(j);
        if entry.None? {
          break;
        }
        assert q[n..][1..] == q[n + 1..] && entry.value == q[n];
        HeadIsKnown(b, l, q, meets, n, board, ledger);
        ghost var c, m, before := board, ledger, projects;
        var ending := ReplayOnePending(j, entry.value, meets(n));
        Onwards(b, l, q, meets, n, c, m);
        FrozenBy(before, j, ending);
        n := n + 1;
        if ending.Refreezes? {
          return Refrozen, n;
        }
      }
    }
  }

  /** Board and ledger before the entry behind the first `n`. */
  ghost predicate SoFar(b: Board, l: Ledger, q: seq<nat>, meets: nat -> Meets, n: nat, c: Board, m: Ledger) {
    && n <= |q| && AllKnown(b, l, q) && OnlyMerges(b, c) && m == Worked(b, l, q, meets, n)
    && NoClash(b, l, q, meets, n) && Listed(c.merged, b, l, q, meets, n)
  }

  /** Board and ledger when the replay stopped behind `n` entries. */
  ghost predicate Handled(
      b: Board, l: Ledger, q: seq<nat>, meets: nat -> Meets, n: nat, refrozen: bool, c: Board, m: Ledger)
    requires AllKnown(b, l, q)
  {
    && n <= |q| && m == Worked(b, l, q, meets, n) && Listed(c.merged, b, l, q, meets, n)
    && (if refrozen then n > 0 && NoClash(b, l, q, meets, n - 1) && EndingAt(b, l, q[n - 1], meets(n - 1)).Refreezes?
        else NoClash(b, l, q, meets, n))
  }

  lemma SoFarIsHandled(b: Board, l: Ledger, q: seq<nat>, meets: nat -> Meets, n: nat, c: Board, m: Ledger)
    requires SoFar(b, l, q, meets, n, c, m)
    ensures AllKnown(b, l, q) && Handled(b, l, q, meets, n, false, c, m) && OnlyMerges(b, c)
  {
  }

  /** One entry further. */
  lemma Onwards(b: Board, l: Ledger, q: seq<nat>, meets: nat -> Meets, n: nat, c: Board, m: Ledger)
    requires SoFar(b, l, q, meets, n, c, m) && n < |q|
    ensures Known(c, m, q[n])
    ensures var ending := EndingAt(c, m, q[n], meets(n));
      var c2 := BoardAfter(c, m, q[n], ending);
      && Handled(b, l, q, meets, n + 1, ending.Refreezes?, c2, Concluded(m, q[n], ending)) && OnlyMerges(b, c2)
      && (!ending.Refreezes? ==> SoFar(b, l, q, meets, n + 1, c2, Concluded(m, q[n], ending)))
      && (ending.Refreezes? ==> (ending.freezes <==> Marks(meets(n).result)))
  {
    HeadIsKnown(b, l, q, meets, n, c, m);
    SameEnding(b, c, l, m, q[n], meets(n));
    var ending := EndingAt(b, l, q[n], meets(n));
    var c2 := BoardAfter(c, m, q[n], ending);
    OneMore(c, c2, b, l, q, meets, n);
    if ending.Refreezes? {
      MarksWhen(b, l, q[n], meets(n));
    }
    hide EndingAt, NoClash, Listed, Concluded, PlaceAfter, Known;
  }

  /** The freeze mark could be set. */
  predicate Marks(result: MergeResult) { result.Conflicts? && result.freezes }

  lemma MarksWhen(b: Board, l: Ledger, p: nat, m: Meets)
    requires p < |l.placements| && EndingAt(b, l, p, m).Refreezes?
    ensures EndingAt(b, l, p, m).freezes <==> Marks(m.result)
  {
  }

  lemma FrozenBy(before: Projects, j: nat, ending: Ending)
    requires j !in before.frozen
    ensures var after := Frozen(before, j, ending);
      && Queue(after.queues, j) == Queue(before.queues, j)
      && (j in after.frozen <==> ending.Refreezes? && ending.freezes)
  {
  }

  lemma HeadIsKnown(b: Board, l: Ledger, q: seq<nat>, meets: nat -> Meets, n: nat, c: Board, m: Ledger)
    requires SoFar(b, l, q, meets, n, c, m) && n < |q|
    ensures Known(c, m, q[n]) && m.placements == l.placements
  {
  }

  lemma NothingYet(b: Board, l: Ledger, q: seq<nat>, meets: nat -> Meets)
    requires AllKnown(b, l, q)
    ensures SoFar(b, l, q, meets, 0, b, l)
  {
  }

  lemma OneMore(before: Board, after: Board, b: Board, l: Ledger, q: seq<nat>, meets: nat -> Meets, n: nat)
    requires n < |q| && AllKnown(b, l, q) && Listed(before.merged, b, l, q, meets, n) && NoClash(b, l, q, meets, n)
    requires var ending := EndingAt(b, l, q[n], meets(n));
      after == if PlaceAfter(ending) == MergedIn then before.Merged(l.placements[q[n]].task) else before
    ensures Listed(after.merged, b, l, q, meets, n + 1)
    ensures !EndingAt(b, l, q[n], meets(n)).Refreezes? ==> NoClash(b, l, q, meets, n + 1)
  {
    hide EndingAt;
  }

  lemma SameEnding(a: Board, b: Board, l: Ledger, m: Ledger, p: nat, meets: Meets)
    requires p < |l.placements| && m.placements == l.placements && a.base == b.base
    ensures EndingAt(a, l, p, meets) == EndingAt(b, m, p, meets)
  {
  }

  // ----- The loop and the steps of `Apply` -----

  /** What cannot be read: the method does to ledger, board and projects what the step
      of the replay does that meets an unreadable issue. */
  lemma UnreadableIsAStep(s: State, r: nat, m: Meets)
    requires Enabled(s, ReplayIssue(r, false)) && !m.readable
    ensures var p, n := s.replays[r].pc.pid, Apply(s, ReplayIssue(r, false));
      var ending := EndingAt(s.board, s.ledger, p, m);
      && n.ledger == Concluded(s.ledger, p, ending)
      && n.projects == Frozen(s.projects, s.replays[r].project, ending)
      && n.board == BoardAfter(s.board, s.ledger, p, ending)
      && n.replays[r].pc.Popping? && !ending.Refreezes?
  {
  }

  /** What can be read: it does what the merge in the serial section does together with
      entering the task, if something was committed; and the replay ends exactly on a
      conflict. */
  lemma MergeIsTheSteps(s: State, r: nat, m: Meets)
    requires Enabled(s, ReplayMerge(r, m.result)) && m.readable && m.based
    ensures var p, n := s.replays[r].pc.pid, Apply(s, ReplayMerge(r, m.result));
      var ending := EndingAt(s.board, s.ledger, p, m);
      && n.ledger == Concluded(s.ledger, p, ending)
      && n.projects == Frozen(s.projects, s.replays[r].project, ending)
      && (if ending.Commits? then
            && Enabled(n, ReplayMark(r))
            && Apply(n, ReplayMark(r)) == ReplayTo(n, r, Popping).(
                 board := BoardAfter(s.board, s.ledger, p, ending), serial := None)
          else
            && n.board == BoardAfter(s.board, s.ledger, p, ending)
            && (n.replays[r].pc.Ended? <==> ending.Refreezes?)
            && (n.replays[r].pc.Popping? <==> !ending.Refreezes?))
  {
    hide ApplyTrigger, ApplyMerge, ApplyLegs;
  }

  /** A pop takes the head of the queue as the replay's own step does. */
  lemma PopIsAStep(s: State, r: nat)
    requires Inv(s) && Enabled(s, Pop(r, true)) && Queue(s.projects.queues, s.replays[r].project) != []
    ensures var j, n := s.replays[r].project, Apply(s, Pop(r, true));
      && n.projects == Dequeued(s.projects, j)
      && n.replays[r].pc == Popped(Queue(s.projects.queues, j)[0])
  {
    assert QueueOk(s, s.replays[r].project);
    hide Inv, ApplyTrigger, ApplyMerge, ApplyLegs;
  }
}
