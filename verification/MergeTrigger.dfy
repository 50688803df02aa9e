/** The two-leg merge trigger: a delivery is merged when its dispatch is done and
    its changeset has landed, whichever comes later. Attempts, the emergency
    stop, the conflict freeze with its queue, the replay after it and the
    automatic resolver interleave freely. */
module MergeTrigger {
  import opened Wrappers

  // ----- What is on the board -----

  datatype Phase = InFlight | Done | Failed

  datatype Dispatch = Dispatch(project: nat, phase: Phase)

  /** The changeset in a placement directory, with the base it declares. */
  datatype Changeset = Absent | Corrupt | Changes(base: nat)

  /** One registration of a landed delivery. */
  datatype Placement = Placement(task: nat, changeset: Changeset)

  /** Where a placement is. */
  datatype Place =
    | Placed            // registered, not yet taken
    | Overwritten       // replaced in the registry by a later registration
    | Held(a: nat)      // in the hands of attempt `a`
    | Queued            // waiting for the project to thaw
    | Absorbed          // not queued again, its task was in the queue
    | Replaying(r: nat) // in the hands of replay `r`
    | MergedIn
    | Superseded
    | Parked
    | Auto              // handed to the automatic resolver
    | Lost              // gone with the process

  // ----- The steps of one attempt -----

  datatype Verdict =
    | NotArchivePipeline | WaitingDispatch | WaitingChangeset | EstopHalted | SupersededV | MergedV | ParkedV
    | FrozenDeferred | AutoResolveStarted

  datatype Pc =
    | Begun
    | HasBase(base: nat)
    | NotMerged(base: nat)
    | DispatchFailed
    | DispatchDone(base: nat)
    | EstopClear(base: nat)
    | Taken(pid: nat, base: nat)
    | Resolved(pid: nat, base: nat)
    | Deferring(pid: nat, base: nat)
    | Unfrozen(pid: nat, base: nat)
    | Loaded(pid: nat, base: nat)
    | InSerial(pid: nat, base: nat)
    | Committed
    | Finished(verdict: Verdict)

  datatype Attempt = Attempt(task: nat, pc: Pc)

  datatype ReplayPc = Popping | Popped(pid: nat) | ReplaySerial(pid: nat) | ReplayCommitted(task: nat) | Ended

  datatype Replay = Replay(project: nat, pc: ReplayPc)

  datatype Owner = ByAttempt(a: nat) | ByReplay(r: nat)

  datatype MergeResult = Merges | Conflicts(auto: bool, freezes: bool) | Fails

  datatype Commit = Commit(pid: nat, base: nat)

  /** The dispatches with their recorded bases; the registry of landed placements
      and the set of merged tasks; attempts the two legs still owe. */
  datatype Board = Board(
    base: map<nat, nat>, dispatch: map<nat, Dispatch>, placed: map<nat, nat>, merged: set<nat>, owed: multiset<nat>)
  {
    function Registered(t: nat): Option<nat> { if t in placed then Some(placed[t]) else None }
    function Register(t: nat, p: nat): Board { this.(placed := placed[t := p]) }
    function Without(t: nat): Board { this.(placed := placed - {t}) }
    function Merged(t: nat): Board { this.(merged := merged + {t}) }
  }

  /** The emergency stop: its flag, the value last announced and the announcements
      still to come; the watcher's wake-up mark and what it has left to retry. */
  datatype Stop = Stop(
    engaged: bool, shown: bool, sends: multiset<bool>, dirty: bool, collecting: bool, todo: set<nat>)

  /** Per project: the freeze mark and the queue of deferred placements; what ever
      entered and left the queue is history. */
  datatype Projects = Projects(
    frozen: set<nat>, queues: map<nat, seq<nat>>, arrived: map<nat, seq<nat>>, served: map<nat, seq<nat>>)

  /** History: all registrations, where each placement is, all commits. */
  datatype Ledger = Ledger(placements: seq<Placement>, places: seq<Place>, commits: seq<Commit>)

  datatype State = State(
    board: Board, stop: Stop, projects: Projects, ledger: Ledger, serial: Option<Owner>,
    attempts: seq<Attempt>, replays: seq<Replay>)

  datatype Event =
    // the dispatch and its write-back leg
    | NewDispatch(t: nat, project: nat)
    | RecordBase(t: nat, base: nat)
    | FinishDispatch(t: nat, success: bool, sees: bool)
    // the landing leg, and the start of the attempt either leg owes
    | Register(t: nat, changeset: Changeset)
    | StartOwed(t: nat)
    // the emergency stop and its watcher
    | SetStop(engaged: bool)
    | AnnounceStop(engaged: bool)
    | WatcherWakes
    | WatcherCollects
    | WatcherRuns(t: nat)
    // one attempt
    | ReadBase(a: nat, ok: bool)
    | CheckMerged(a: nat)
    | ReadDispatch(a: nat, ok: bool)
    | TakeFailed(a: nat)
    | CheckEstop(a: nat)
    | Take(a: nat)
    | Resolve(a: nat, ok: bool)
    | CheckFrozen(a: nat, ok: bool)
    | Defer(a: nat, ok: bool)
    | Load(a: nat)
    | Acquire(a: nat)
    | Merge(a: nat, result: MergeResult)
    | MarkMerged(a: nat)
    // replay of the queue after a thaw
    | StartReplay(project: nat, ok: bool)
    | Pop(r: nat, ok: bool)
    | ReplayIssue(r: nat, ok: bool)
    | ReplayMerge(r: nat, result: MergeResult)
    | ReplayMark(r: nat)
    // the automatic resolver, and the end of the process
    | ResolverCommits(pid: nat)
    | ResolverGivesUp(pid: nat, freezes: bool)
    | Restart(engaged: bool)

  function Init(): State {
    State(
      Board(map[], map[], map[], {}, multiset{}),
      Stop(false, false, multiset{}, false, false, {}),
      Projects({}, map[], map[], map[]),
      Ledger([], [], []), None, [], [])
  }

  // ----- Reading the state -----

  function Queue(m: map<nat, seq<nat>>, project: nat): seq<nat> { if project in m then m[project] else [] }

  /** The placement an attempt has in hand. */
  function Carries(pc: Pc): Option<nat> {
    match pc
    case Taken(p, _) => Some(p)
    case Resolved(p, _) => Some(p)
    case Deferring(p, _) => Some(p)
    case Unfrozen(p, _) => Some(p)
    case Loaded(p, _) => Some(p)
    case InSerial(p, _) => Some(p)
    case _ => None
  }

  function ReplayCarries(pc: ReplayPc): Option<nat> {
    match pc
    case Popped(p) => Some(p)
    case ReplaySerial(p) => Some(p)
    case _ => None
  }

  /** A registered placement of a dispatched task. */
  predicate Known(b: Board, l: Ledger, p: nat) {
    p < |l.placements| && p < |l.places| && l.placements[p].task in b.dispatch
  }

  function ProjectOf(b: Board, l: Ledger, p: nat): nat
    requires Known(b, l, p)
  {
    b.dispatch[l.placements[p].task].project
  }

  /** The task is in the queue already. */
  predicate HasTask(l: Ledger, queue: seq<nat>, t: nat) {
    exists p :: p in queue && p < |l.placements| && l.placements[p].task == t
  }

  /** Attempt `a` is at work on a placement. */
  predicate Working(s: State, a: nat) {
    a < |s.attempts| && Carries(s.attempts[a].pc).Some? && Known(s.board, s.ledger, Carries(s.attempts[a].pc).value)
  }

  predicate Replays(s: State, r: nat) {
    r < |s.replays| && ReplayCarries(s.replays[r].pc).Some?
      && Known(s.board, s.ledger, ReplayCarries(s.replays[r].pc).value)
  }

  predicate Enabled(s: State, e: Event) {
    match e
    case NewDispatch(t, _) => t !in s.board.dispatch
    case RecordBase(t, _) => t in s.board.dispatch && t !in s.board.base
    case FinishDispatch(t, _, _) => t in s.board.dispatch && s.board.dispatch[t].phase.InFlight?
    case Register(t, _) => t in s.board.dispatch
    case StartOwed(t) => t in s.board.owed
    case SetStop(_) => true
    case AnnounceStop(v) => v in s.stop.sends
    case WatcherWakes => s.stop.dirty && !s.stop.collecting && s.stop.todo == {}
    case WatcherCollects => s.stop.collecting
    case WatcherRuns(t) => t in s.stop.todo
    case ReadBase(a, _) => a < |s.attempts| && s.attempts[a].pc.Begun?
    case CheckMerged(a) => a < |s.attempts| && s.attempts[a].pc.HasBase?
    case ReadDispatch(a, _) => a < |s.attempts| && s.attempts[a].pc.NotMerged?
    case TakeFailed(a) => a < |s.attempts| && s.attempts[a].pc.DispatchFailed?
    case CheckEstop(a) => a < |s.attempts| && s.attempts[a].pc.DispatchDone?
    case Take(a) => a < |s.attempts| && s.attempts[a].pc.EstopClear?
    case Resolve(a, _) => Working(s, a) && s.attempts[a].pc.Taken?
    case CheckFrozen(a, _) => Working(s, a) && s.attempts[a].pc.Resolved?
    case Defer(a, _) => Working(s, a) && s.attempts[a].pc.Deferring?
    case Load(a) => Working(s, a) && s.attempts[a].pc.Unfrozen?
    case Acquire(a) => Working(s, a) && s.attempts[a].pc.Loaded? && s.serial.None?
    case Merge(a, _) => Working(s, a) && s.attempts[a].pc.InSerial?
    case MarkMerged(a) => a < |s.attempts| && s.attempts[a].pc.Committed?
    case StartReplay(project, _) => !s.stop.engaged && project in s.projects.frozen
    case Pop(r, _) => r < |s.replays| && s.replays[r].pc.Popping?
    case ReplayIssue(r, _) => Replays(s, r) && s.replays[r].pc.Popped? && s.serial.None?
    case ReplayMerge(r, _) => Replays(s, r) && s.replays[r].pc.ReplaySerial?
    case ReplayMark(r) => r < |s.replays| && s.replays[r].pc.ReplayCommitted?
    case ResolverCommits(p) =>
      Known(s.board, s.ledger, p) && s.ledger.places[p].Auto? && s.ledger.placements[p].changeset.Changes?
        && s.serial.None?
    case ResolverGivesUp(p, _) => Known(s.board, s.ledger, p) && s.ledger.places[p].Auto?
    case Restart(_) => true
  }

  // ----- The decision inside the serial section -----

  datatype Ending = Empty | Commits(base: nat) | Supersedes | HandsOver | Refreezes(freezes: bool) | Parks

  /** `base` is the recorded base of the dispatch, `result` what git says. */
  function EndingOf(changeset: Changeset, base: Option<nat>, result: MergeResult): Ending {
    match changeset
    case Absent => Empty
    case Corrupt => Parks
    case Changes(declared) =>
      if base.None? then Parks
      else if declared != base.value then Supersedes
      else
        match result
        case Merges => Commits(declared)
        case Conflicts(auto, freezes) => if auto then HandsOver else Refreezes(freezes)
        case Fails => Parks
  }

  function PlaceAfter(ending: Ending): Place {
    match ending
    case Empty => MergedIn
    case Commits(_) => MergedIn
    case Supersedes => Superseded
    case HandsOver => Auto
    case Refreezes(_) => Parked
    case Parks => Parked
  }

  function VerdictAfter(ending: Ending): Verdict {
    match ending
    case Empty => MergedV
    case Commits(_) => MergedV
    case Supersedes => SupersededV
    case HandsOver => AutoResolveStarted
    case Refreezes(_) => ParkedV
    case Parks => ParkedV
  }

  // ----- Updates of the parts -----

  function Moved(l: Ledger, p: nat, place: Place): Ledger
    requires p < |l.places|
  {
    l.(places := l.places[p := place])
  }

  function Concluded(l: Ledger, p: nat, ending: Ending): Ledger
    requires p < |l.places|
  {
    var m := Moved(l, p, PlaceAfter(ending));
    if ending.Commits? then m.(commits := l.commits + [Commit(p, ending.base)]) else m
  }

  function Frozen(j: Projects, project: nat, ending: Ending): Projects {
    if ending.Refreezes? && ending.freezes then j.(frozen := j.frozen + {project}) else j
  }

  function Enqueued(j: Projects, project: nat, p: nat): Projects {
    j.(queues := j.queues[project := Queue(j.queues, project) + [p]],
       arrived := j.arrived[project := Queue(j.arrived, project) + [p]])
  }

  function Dequeued(j: Projects, project: nat): Projects
    requires Queue(j.queues, project) != []
  {
    var q := Queue(j.queues, project);
    j.(queues := j.queues[project := q[1..]], served := j.served[project := Queue(j.served, project) + [q[0]]])
  }

  function RegisteredIn(l: Ledger, b: Board, t: nat, changeset: Changeset): Ledger {
    var kept := if t in b.placed && b.placed[t] < |l.places| then l.places[b.placed[t] := Overwritten] else l.places;
    l.(placements := l.placements + [Placement(t, changeset)], places := kept + [Placed])
  }

  function AfterCrash(place: Place): Place {
    match place
    case Placed => Lost
    case Held(_) => Lost
    case Replaying(_) => Lost
    case Auto => Lost
    case _ => place
  }

  function Crashed(s: State, engaged: bool): State {
    s.(board := s.board.(placed := map[], merged := {}, owed := multiset{}),
       stop := Stop(engaged, engaged, multiset{}, false, false, {}),
       ledger := s.ledger.(places :=
         seq(|s.ledger.places|, i requires 0 <= i < |s.ledger.places| => AfterCrash(s.ledger.places[i]))),
       serial := None, attempts := [], replays := [])
  }

  function To(s: State, a: nat, pc: Pc): State
    requires a < |s.attempts|
  {
    s.(attempts := s.attempts[a := s.attempts[a].(pc := pc)])
  }

  function ReplayTo(s: State, r: nat, pc: ReplayPc): State
    requires r < |s.replays|
  {
    s.(replays := s.replays[r := s.replays[r].(pc := pc)])
  }

  function Put(s: State, p: nat, place: Place): State
    requires p < |s.ledger.places|
  {
    s.(ledger := Moved(s.ledger, p, place))
  }

  /** The attempt gives its placement up. */
  function ParkedBy(s: State, a: nat): State
    requires Working(s, a)
  {
    To(Put(s, Carries(s.attempts[a].pc).value, Parked), a, Finished(ParkedV))
  }

  // ----- Steps -----

  function ApplyLegs(s: State, e: Event): State
    requires Enabled(s, e)
  {
    var b := s.board;
    match e
    case NewDispatch(t, project) => s.(board := b.(dispatch := b.dispatch[t := Dispatch(project, InFlight)]))
    case RecordBase(t, base) => s.(board := b.(base := b.base[t := base]))
    case FinishDispatch(t, success, sees) =>
      s.(board := b.(
        dispatch := b.dispatch[t := b.dispatch[t].(phase := if success then Done else Failed)],
        owed := if success && sees && t in b.base then b.owed + multiset{t} else b.owed))
    case Register(t, changeset) =>
      s.(board := b.Register(t, |s.ledger.placements|).(owed := b.owed + multiset{t}),
         ledger := RegisteredIn(s.ledger, b, t, changeset))
    case StartOwed(t) => s.(board := b.(owed := b.owed - multiset{t}), attempts := s.attempts + [Attempt(t, Begun)])
    case SetStop(v) => s.(stop := s.stop.(engaged := v, sends := s.stop.sends + multiset{v}))
    case AnnounceStop(v) => s.(stop := s.stop.(shown := v, dirty := true, sends := s.stop.sends - multiset{v}))
    case WatcherWakes => s.(stop := s.stop.(dirty := false, collecting := !s.stop.shown))
    case WatcherCollects => s.(stop := s.stop.(collecting := false, todo := b.placed.Keys))
    case WatcherRuns(t) => s.(stop := s.stop.(todo := s.stop.todo - {t}), attempts := s.attempts + [Attempt(t, Begun)])
    case _ => s
  }

  /** The steps up to taking the placement. */
  function ApplyTrigger(s: State, e: Event): State
    requires Enabled(s, e)
  {
    var b := s.board;
    match e
    case ReadBase(a, ok) =>
      var t := s.attempts[a].task;
      To(s, a, if ok && t in b.base then HasBase(b.base[t]) else Finished(NotArchivePipeline))
    case CheckMerged(a) =>
      To(s, a, if s.attempts[a].task in b.merged then Finished(MergedV) else NotMerged(s.attempts[a].pc.base))
    case ReadDispatch(a, ok) =>
      var t := s.attempts[a].task;
      To(s, a,
        if !ok || t !in b.dispatch then Finished(NotArchivePipeline)
        else
          match b.dispatch[t].phase
          case Failed => DispatchFailed
          case InFlight => Finished(WaitingDispatch)
          case Done => DispatchDone(s.attempts[a].pc.base))
    case TakeFailed(a) =>
      var t := s.attempts[a].task;
      var gone := To(s, a, Finished(SupersededV)).(board := b.Without(t));
      if t in b.placed && b.placed[t] < |s.ledger.places| then Put(gone, b.placed[t], Superseded) else gone
    case CheckEstop(a) =>
      To(s, a, if s.stop.engaged then Finished(EstopHalted) else EstopClear(s.attempts[a].pc.base))
    case Take(a) =>
      var t := s.attempts[a].task;
      var out := s.(board := b.Without(t));
      if t in b.placed && b.placed[t] < |s.ledger.places|
      then To(Put(out, b.placed[t], Held(a)), a, Taken(b.placed[t], s.attempts[a].pc.base))
      else To(out, a, Finished(WaitingChangeset))
    case _ => s
  }

  /** The steps with the placement in hand. */
  function ApplyMerge(s: State, e: Event): State
    requires Enabled(s, e)
  {
    match e
    case Resolve(a, ok) =>
      if ok then To(s, a, Resolved(s.attempts[a].pc.pid, s.attempts[a].pc.base)) else ParkedBy(s, a)
    case CheckFrozen(a, ok) =>
      var p, base := s.attempts[a].pc.pid, s.attempts[a].pc.base;
      To(s, a, if ok && ProjectOf(s.board, s.ledger, p) in s.projects.frozen then Deferring(p, base)
        else Unfrozen(p, base))
    case Defer(a, ok) =>
      var p := s.attempts[a].pc.pid;
      var j, t := ProjectOf(s.board, s.ledger, p), s.ledger.placements[p].task;
      if !ok then ParkedBy(s, a)
      else if HasTask(s.ledger, Queue(s.projects.queues, j), t)
        then To(Put(s, p, Absorbed), a, Finished(FrozenDeferred))
      else To(Put(s, p, Queued), a, Finished(FrozenDeferred)).(projects := Enqueued(s.projects, j, p))
    case Load(a) =>
      var p := s.attempts[a].pc.pid;
      if s.ledger.placements[p].changeset.Corrupt? then ParkedBy(s, a) else To(s, a, Loaded(p, s.attempts[a].pc.base))
    case Acquire(a) => To(s, a, InSerial(s.attempts[a].pc.pid, s.attempts[a].pc.base)).(serial := Some(ByAttempt(a)))
    case Merge(a, result) =>
      var p := s.attempts[a].pc.pid;
      var ending := EndingOf(s.ledger.placements[p].changeset, Some(s.attempts[a].pc.base), result);
      To(s, a, if ending.Commits? then Committed else Finished(VerdictAfter(ending)))
        .(ledger := Concluded(s.ledger, p, ending),
          projects := Frozen(s.projects, ProjectOf(s.board, s.ledger, p), ending),
          board := if ending.Empty? then s.board.Merged(s.attempts[a].task) else s.board,
          serial := if ending.Commits? then s.serial else None)
    case MarkMerged(a) =>
      To(s, a, Finished(MergedV)).(board := s.board.Merged(s.attempts[a].task), serial := None)
    case _ => s
  }

  function ApplyReplay(s: State, e: Event): State
    requires Enabled(s, e)
  {
    match e
    case StartReplay(project, ok) =>
      s.(projects := s.projects.(frozen := s.projects.frozen - {project}),
         replays := s.replays + [Replay(project, if ok then Popping else Ended)])
    case Pop(r, ok) =>
      var j := s.replays[r].project;
      var q := Queue(s.projects.queues, j);
      if !ok || q == [] || q[0] >= |s.ledger.places| then ReplayTo(s, r, Ended)
      else ReplayTo(Put(s, q[0], Replaying(r)), r, Popped(q[0])).(projects := Dequeued(s.projects, j))
    case ReplayIssue(r, ok) =>
      var p := s.replays[r].pc.pid;
      if ok then ReplayTo(s, r, ReplaySerial(p)).(serial := Some(ByReplay(r)))
      else ReplayTo(Put(s, p, Parked), r, Popping)
    case ReplayMerge(r, result) =>
      var p := s.replays[r].pc.pid;
      var t := s.ledger.placements[p].task;
      var ending := EndingOf(s.ledger.placements[p].changeset, if t in s.board.base then Some(s.board.base[t])
        else None, ByHand(result));
      ReplayTo(s, r, if ending.Commits? then ReplayCommitted(t) else if ending.Refreezes? then Ended else Popping)
        .(ledger := Concluded(s.ledger, p, ending),
          projects := Frozen(s.projects, s.replays[r].project, ending),
          board := if ending.Empty? then s.board.Merged(t) else s.board,
          serial := if ending.Commits? then s.serial else None)
    case ReplayMark(r) =>
      ReplayTo(s, r, Popping).(board := s.board.Merged(s.replays[r].pc.task), serial := None)
    case ResolverCommits(p) => s.(ledger := Concluded(s.ledger, p, Commits(s.ledger.placements[p].changeset.base)))
    case ResolverGivesUp(p, freezes) =>
      s.(ledger := Moved(s.ledger, p, Parked),
        projects := Frozen(s.projects, ProjectOf(s.board, s.ledger, p), Refreezes(freezes)))
    case Restart(engaged) => Crashed(s, engaged)
    case _ => s
  }

  /** A replay never hands a conflict to the automatic resolver. */
  function ByHand(result: MergeResult): MergeResult {
    match result
    case Conflicts(_, freezes) => Conflicts(false, freezes)
    case _ => result
  }

  predicate OfTrigger(e: Event) {
    e.ReadBase? || e.CheckMerged? || e.ReadDispatch? || e.TakeFailed? || e.CheckEstop? || e.Take?
  }

  predicate OfMerge(e: Event) {
    e.Resolve? || e.CheckFrozen? || e.Defer? || e.Load? || e.Acquire? || e.Merge? || e.MarkMerged?
  }

  predicate OfReplay(e: Event) {
    || e.StartReplay? || e.Pop? || e.ReplayIssue? || e.ReplayMerge? || e.ReplayMark? || e.ResolverCommits?
    || e.ResolverGivesUp? || e.Restart?
  }

  function Apply(s: State, e: Event): State
    requires Enabled(s, e)
  {
    if OfTrigger(e) then ApplyTrigger(s, e)
    else if OfMerge(e) then ApplyMerge(s, e)
    else if OfReplay(e) then ApplyReplay(s, e)
    else ApplyLegs(s, e)
  }

  function Step(s: State, e: Event): State { if Enabled(s, e) then Apply(s, e) else s }

  function Run(es: seq<Event>): State {
    if es == [] then Init() else Step(Run(es[..|es| - 1]), es[|es| - 1])
  }

  // ----- Conservation: where a placement is -----

  predicate OnRegistry(s: State, p: nat) {
    p < |s.ledger.placements| && s.ledger.placements[p].task in s.board.placed
    && s.board.placed[s.ledger.placements[p].task] == p
  }

  predicate HeldBy(s: State, a: nat, p: nat) { a < |s.attempts| && Carries(s.attempts[a].pc) == Some(p) }

  predicate ReplayedBy(s: State, r: nat, p: nat) { r < |s.replays| && ReplayCarries(s.replays[r].pc) == Some(p) }

  predicate Waits(s: State, j: nat, p: nat) { p in Queue(s.projects.queues, j) }

  /** The registry, the attempts, the queues and the replays agree with the place
      on record: the placement is in exactly one of them, or in none once it has
      come to rest. */
  ghost predicate PlaceOk(s: State, p: nat)
    requires p < |s.ledger.places|
  {
    var place := s.ledger.places[p];
    && (OnRegistry(s, p) <==> place == Placed)
    && (forall a :: HeldBy(s, a, p) <==> place == Held(a))
    && (forall r :: ReplayedBy(s, r, p) <==> place == Replaying(r))
    && (forall j :: Waits(s, j, p) ==>
        place == Queued && p < |s.ledger.placements| && Known(s.board, s.ledger, p)
          && ProjectOf(s.board, s.ledger, p) == j)
    && (place == Queued ==> Known(s.board, s.ledger, p) && Waits(s, ProjectOf(s.board, s.ledger, p), p))
  }

  /** Everything in the containers is a registered placement of the right task. */
  ghost predicate AttemptOk(s: State, a: nat)
    requires a < |s.attempts|
  {
    var x := s.attempts[a];
    && (Carries(x.pc).Some? ==>
        && Known(s.board, s.ledger, Carries(x.pc).value)
        && s.ledger.placements[Carries(x.pc).value].task == x.task && x.task in s.board.base
            && s.board.base[x.task] == x.pc.base)
    && (x.pc.HasBase? || x.pc.NotMerged? || x.pc.DispatchDone? || x.pc.EstopClear? ==>
        x.task in s.board.base && s.board.base[x.task] == x.pc.base)
    && (x.pc.InSerial? || x.pc.Committed? ==> s.serial == Some(ByAttempt(a)))
  }

  ghost predicate ReplayOk(s: State, r: nat)
    requires r < |s.replays|
  {
    var x := s.replays[r];
    && (ReplayCarries(x.pc).Some? ==>
        && Known(s.board, s.ledger, ReplayCarries(x.pc).value)
        && ProjectOf(s.board, s.ledger, ReplayCarries(x.pc).value) == x.project)
    && (x.pc.ReplaySerial? || x.pc.ReplayCommitted? ==> s.serial == Some(ByReplay(r)))
  }

  ghost predicate RegistryOk(s: State, t: nat)
    requires t in s.board.placed
  {
    s.board.placed[t] < |s.ledger.placements| && s.ledger.placements[s.board.placed[t]].task == t
  }

  ghost predicate QueueOk(s: State, j: nat) {
    var q := Queue(s.projects.queues, j);
    && (forall i :: 0 <= i < |q| ==> q[i] < |s.ledger.places|)
    && (forall i, k :: 0 <= i < k < |q| ==> q[i] != q[k])
    && Queue(s.projects.arrived, j) == Queue(s.projects.served, j) + q
  }

  /** A commit was made of a placement that has come to rest as merged, with the
      base its dispatch was given; no placement was committed twice. */
  ghost predicate CommitOk(s: State, i: nat)
    requires i < |s.ledger.commits|
  {
    var c := s.ledger.commits[i];
    && Known(s.board, s.ledger, c.pid) && s.ledger.places[c.pid] == MergedIn
    && s.ledger.placements[c.pid].task in s.board.base
    && s.ledger.placements[c.pid].changeset == Changes(c.base)
    && s.board.base[s.ledger.placements[c.pid].task] == c.base
    && (forall k :: 0 <= k < |s.ledger.commits| && k != i ==> s.ledger.commits[k].pid != c.pid)
  }

  ghost predicate AutoOk(s: State, p: nat)
    requires p < |s.ledger.places|
  {
    s.ledger.places[p].Auto? ==>
      Known(s.board, s.ledger, p) && s.ledger.placements[p].task in s.board.base
      && s.ledger.placements[p].changeset == Changes(s.board.base[s.ledger.placements[p].task])
  }

  ghost predicate Sizes(s: State) {
    && |s.ledger.places| == |s.ledger.placements|
    && (forall p :: 0 <= p < |s.ledger.placements| ==> s.ledger.placements[p].task in s.board.dispatch)
  }

  ghost predicate Inv(s: State) {
    && Sizes(s)
    && (forall p :: 0 <= p < |s.ledger.places| ==> PlaceOk(s, p) && AutoOk(s, p))
    && (forall a :: 0 <= a < |s.attempts| ==> AttemptOk(s, a))
    && (forall r :: 0 <= r < |s.replays| ==> ReplayOk(s, r))
    && (forall t :: t in s.board.placed ==> RegistryOk(s, t))
    && (forall j :: QueueOk(s, j))
    && (forall i :: 0 <= i < |s.ledger.commits| ==> CommitOk(s, i))
  }
}
