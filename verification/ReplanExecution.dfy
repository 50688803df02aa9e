/** The autonomous leg of the replanner: the policy gates over a proposal and the
    execution of its cancel, modify and add actions. */
module ReplanExecution {
  import opened Wrappers
  import opened TextUtil

  datatype Op = Cancel | Modify | Add

  datatype Action = Action(op: Option<Op>, number: string, title: string, description: string, acceptance: string)

  /** A direct sub-issue of the root, as read before the draft. */
  datatype Child = Child(number: string, terminal: bool)

  datatype Config = Config(maxNew: nat, allowCancelActive: bool)

  function Find(children: seq<Child>, number: string): (c: Option<Child>)
    ensures c.Some? ==> c.value in children && c.value.number == number
    ensures c.None? <==> forall d :: d in children ==> d.number != number
  {
    if children == [] then None
    else if children[0].number == number then Some(children[0])
    else Find(children[1..], number)
  }

  function Target(children: seq<Child>, a: Action): Option<Child> { Find(children, Trim(a.number)) }

  function CountOp(actions: seq<Action>, op: Op): nat {
    if actions == [] then 0
    else CountOp(actions[..|actions| - 1], op) + if actions[|actions| - 1].op == Some(op) then 1 else 0
  }

  // ----- The gates -----

  datatype Violation = TooManyNew(count: nat) | OutsideTree(index: nat) | CancelsActive(index: nat)

  predicate OutOfTree(children: seq<Child>, a: Action) {
    (a.op == Some(Cancel) || a.op == Some(Modify)) && Target(children, a).None?
  }

  predicate CancelOfActive(children: seq<Child>, a: Action) {
    a.op == Some(Cancel) && Target(children, a).Some? && !Target(children, a).value.terminal
  }

  /** What the policy admits. */
  ghost predicate Admitted(children: seq<Child>, actions: seq<Action>, cfg: Config) {
    && CountOp(actions, Add) <= cfg.maxNew
    && (forall i :: 0 <= i < |actions| ==> !OutOfTree(children, actions[i]))
    && (!cfg.allowCancelActive ==> forall i :: 0 <= i < |actions| ==> !CancelOfActive(children, actions[i]))
  }

  /** A reported violation is a real one. */
  ghost predicate Justified(v: Violation, children: seq<Child>, actions: seq<Action>, cfg: Config) {
    match v
    case TooManyNew(n) => n == CountOp(actions, Add) > cfg.maxNew
    case OutsideTree(i) => i < |actions| && OutOfTree(children, actions[i])
    case CancelsActive(i) => i < |actions| && CancelOfActive(children, actions[i]) && !cfg.allowCancelActive
  }

  method EvaluatePolicyGates(children: seq<Child>, actions: seq<Action>,
    cfg: Config) returns (violations: seq<Violation>)
    ensures violations == [] <==> Admitted(children, actions, cfg)
    ensures forall v :: v in violations <==> Justified(v, children, actions, cfg)
  {
    hide Find, Trim;
    violations := [];
    var adds: nat := 0;
    for i := 0 to |actions|
      invariant adds == CountOp(actions[..i], Add)
    {
      assert actions[..i + 1][..i] == actions[..i];
      if actions[i].op == Some(Add) {
        adds := adds + 1;
      }
    }
    assert actions[..|actions|] == actions;
    if adds > cfg.maxNew {
      violations := [TooManyNew(adds)];
    }
    for i := 0 to |actions|
      invariant forall v :: v in violations <==>
        Justified(v, children, actions, cfg) && (!v.TooManyNew? ==> v.index < i)
    {
      var a := actions[i];
      if a.op != Some(Cancel) && a.op != Some(Modify) {
        continue;
      }
      var child := Target(children, a);
      if child.None? {
        violations := violations + [OutsideTree(i)];
        continue;
      }
      if a.op == Some(Cancel) && !child.value.terminal && !cfg.allowCancelActive {
        violations := violations + [CancelsActive(i)];
      }
    }
    EmptyMeansAdmitted(children, actions, cfg, violations);
  }

  lemma EmptyMeansAdmitted(children: seq<Child>, actions: seq<Action>, cfg: Config, violations: seq<Violation>)
    requires forall v :: v in violations <==> Justified(v, children, actions, cfg)
    ensures violations == [] <==> Admitted(children, actions, cfg)
  {
    hide Find, Trim, OutOfTree, CancelOfActive;
    if violations == [] {
      assert TooManyNew(CountOp(actions, Add)) !in violations;
      forall i | 0 <= i < |actions|
        ensures !OutOfTree(children, actions[i])
        ensures !cfg.allowCancelActive ==> !CancelOfActive(children, actions[i])
      {
        assert OutsideTree(i) !in violations && CancelsActive(i) !in violations;
      }
    } else {
      assert Justified(violations[0], children, actions, cfg);
    }
  }

  // ----- Execution -----

  /** Why an action had no effect. */
  datatype Skip = NotAChild(index: nat) | AlreadyTerminal(index: nat) | StoreRefused(index: nat) | AddFailed

  datatype Diff = Diff(cancelled: seq<nat>, modified: seq<nat>, added: bool, skipped: seq<Skip>)

  /** What the board answers to each store call: the transition or update of
      action `i`, and the one call that adds all new sub-issues. */
  datatype Board = Board(accepts: nat -> bool, addsAccepted: bool)

  predicate HasChange(a: Action) { Trim(a.title) != [] || Trim(a.description) != [] || Trim(a.acceptance) != [] }

  /** Action `i` changes its child. */
  predicate TakesEffect(children: seq<Child>, actions: seq<Action>, board: Board, i: nat)
    requires i < |actions|
  {
    var a := actions[i];
    && Target(children, a).Some? && board.accepts(i)
    && (if a.op == Some(Cancel) then !Target(children, a).value.terminal
        else a.op == Some(Modify) && HasChange(a))
  }

  /** Action `i` is reported as skipped, for this reason. */
  ghost predicate SkippedFor(children: seq<Child>, actions: seq<Action>, board: Board, k: Skip) {
    match k
    case NotAChild(i) => i < |actions| && OutOfTree(children, actions[i])
    case AlreadyTerminal(i) =>
      i < |actions| && actions[i].op == Some(Cancel) && Target(children, actions[i]).Some?
        && Target(children, actions[i]).value.terminal
    case StoreRefused(i) =>
      i < |actions| && !board.accepts(i) && Target(children, actions[i]).Some?
      && (CancelOfActive(children, actions[i]) || (actions[i].op == Some(Modify) && HasChange(actions[i])))
    case AddFailed => CountOp(actions, Add) > 0 && !board.addsAccepted
  }

  method RunCancels(children: seq<Child>, actions: seq<Action>, board: Board) returns (cancelled: seq<nat>,
    skipped: seq<Skip>)
    ensures Strictly(cancelled)
    ensures forall i :: i in cancelled <==>
      0 <= i < |actions| && actions[i].op == Some(Cancel) && TakesEffect(children, actions, board, i)
    ensures forall k :: k in skipped <==>
      !k.AddFailed? && SkippedFor(children, actions, board, k) && actions[k.index].op == Some(Cancel)
  {
    hide Find, Trim;
    cancelled, skipped := [], [];
    for i := 0 to |actions|
      invariant Strictly(cancelled)
      invariant forall j :: j in cancelled <==>
        0 <= j < i && actions[j].op == Some(Cancel) && TakesEffect(children, actions, board, j)
      invariant forall k :: k in skipped <==>
        !k.AddFailed? && k.index < i && SkippedFor(children, actions, board, k) && actions[k.index].op == Some(Cancel)
    {
      var a := actions[i];
      if a.op != Some(Cancel) {
        continue;
      }
      var child := Target(children, a);
      if child.None? {
        skipped := skipped + [NotAChild(i)];
        continue;
      }
      if child.value.terminal {
        skipped := skipped + [AlreadyTerminal(i)];
        continue;
      }
      if board.accepts(i) {
        StrictlySnoc(cancelled, i);
        cancelled := cancelled + [i];
      } else {
        skipped := skipped + [StoreRefused(i)];
      }
    }
  }

  method RunModifies(children: seq<Child>, actions: seq<Action>, board: Board) returns (modified: seq<nat>,
    skipped: seq<Skip>)
    ensures Strictly(modified)
    ensures forall i :: i in modified <==>
      0 <= i < |actions| && actions[i].op == Some(Modify) && TakesEffect(children, actions, board, i)
    ensures forall k :: k in skipped <==>
      !k.AddFailed? && SkippedFor(children, actions, board, k) && actions[k.index].op == Some(Modify)
  {
    hide Find, Trim;
    modified, skipped := [], [];
    for i := 0 to |actions|
      invariant Strictly(modified)
      invariant forall j :: j in modified <==>
        0 <= j < i && actions[j].op == Some(Modify) && TakesEffect(children, actions, board, j)
      invariant forall k :: k in skipped <==>
        !k.AddFailed? && k.index < i && SkippedFor(children, actions, board, k) && actions[k.index].op == Some(Modify)
    {
      var a := actions[i];
      if a.op != Some(Modify) {
        continue;
      }
      var child := Target(children, a);
      if child.None? {
        skipped := skipped + [NotAChild(i)];
        continue;
      }
      if !HasChange(a) {
        continue;
      }
      if board.accepts(i) {
        StrictlySnoc(modified, i);
        modified := modified + [i];
      } else {
        skipped := skipped + [StoreRefused(i)];
      }
    }
  }

  ghost predicate Strictly(xs: seq<nat>) { forall i, j :: 0 <= i < j < |xs| ==> xs[i] < xs[j] }

  lemma StrictlySnoc(xs: seq<nat>, x: nat)
    requires Strictly(xs) && forall y :: y in xs ==> y < x
    ensures Strictly(xs + [x])
  {
    forall i | 0 <= i < |xs| ensures xs[i] < x {
      assert xs[i] in xs;
    }
  }

  datatype Report = Stopped | Refused(violations: seq<Violation>) | Executed(diff: Diff)

  /** The whole leg: nothing runs under an emergency stop or when any gate
      objects; otherwise each action is accounted for. */
  method AutonomousExecute(estop: bool, children: seq<Child>, actions: seq<Action>, cfg: Config,
    board: Board) returns (r: Report)
    ensures r.Stopped? <==> estop
    ensures r.Executed? <==> !estop && Admitted(children, actions, cfg)
    ensures r.Refused? ==> r.violations != [] && forall v :: v in r.violations <==> Justified(v, children, actions, cfg)
    ensures r.Executed? ==>
      && (forall i :: i in r.diff.cancelled <==>
          0 <= i < |actions| && actions[i].op == Some(Cancel) && TakesEffect(children, actions, board, i))
      && (forall i :: i in r.diff.modified <==>
          0 <= i < |actions| && actions[i].op == Some(Modify) && TakesEffect(children, actions, board, i))
      && (r.diff.added <==> CountOp(actions, Add) > 0 && board.addsAccepted)
      && (forall k :: k in r.diff.skipped <==> SkippedFor(children, actions, board, k))
      && Strictly(r.diff.cancelled) && Strictly(r.diff.modified)
  {
    if estop {
      return Stopped;
    }
    var violations := EvaluatePolicyGates(children, actions, cfg);
    if violations != [] {
      return Refused(violations);
    }
    var cancelled, skips := RunCancels(children, actions, board);
    var modified, more := RunModifies(children, actions, board);
    var adds := CountOp(actions, Add);
    var added := adds > 0 && board.addsAccepted;
    var skipped := skips + more + if adds > 0 && !added then [AddFailed] else [];
    forall k ensures k in skipped <==> SkippedFor(children, actions, board, k) {
      SkipHasOp(children, actions, board, k);
    }
    return Executed(Diff(cancelled, modified, added, skipped));
  }

  lemma SkipHasOp(children: seq<Child>, actions: seq<Action>, board: Board, k: Skip)
    ensures SkippedFor(children, actions, board, k) && !k.AddFailed? ==>
      actions[k.index].op == Some(Cancel) || actions[k.index].op == Some(Modify)
  {
  }

  // ----- What the gates buy -----

  /** With permission to cancel active work withheld, an admitted plan cancels
      nothing, whatever the board would accept; and no admitted plan skips an
      action for lack of its target. */
  lemma AdmittedIsTame(children: seq<Child>, actions: seq<Action>, cfg: Config, board: Board, i: nat)
    requires Admitted(children, actions, cfg) && i < |actions|
    ensures actions[i].op == Some(Cancel) && TakesEffect(children, actions, board, i) ==> cfg.allowCancelActive
    ensures !SkippedFor(children, actions, board, NotAChild(i))
  {
    hide Find, Trim;
    assert !OutOfTree(children, actions[i]);
    assert !cfg.allowCancelActive ==> !CancelOfActive(children, actions[i]);
  }

  /** Every cancel or modify action of an admitted plan has exactly one fate: it
      took effect, it was skipped for one reason, or it asked for no change. */
  lemma OneFate(children: seq<Child>, actions: seq<Action>, cfg: Config, board: Board, i: nat)
    requires Admitted(children, actions, cfg) && i < |actions|
    requires actions[i].op == Some(Cancel) || actions[i].op == Some(Modify)
    ensures var done := TakesEffect(children, actions, board, i);
      var terminal := SkippedFor(children, actions, board, AlreadyTerminal(i));
      var refused := SkippedFor(children, actions, board, StoreRefused(i));
      var idle := actions[i].op == Some(Modify) && !HasChange(actions[i]);
      && (done || terminal || refused || idle)
      && !(done && terminal) && !(done && refused) && !(done && idle)
      && !(terminal && refused) && !(terminal && idle) && !(refused && idle)
  {
    hide Find, Trim, HasChange;
    assert !OutOfTree(children, actions[i]);
  }

  // ----- Which actions take effect -----

  predicate NumberedApart(children: seq<Child>) {
    forall i, j :: 0 <= i < j < |children| ==> children[i].number != children[j].number
  }

  lemma {:induction false} FoundIff(children: seq<Child>, c: Child)
    requires NumberedApart(children)
    ensures Find(children, c.number) == Some(c) <==> c in children
  {
    if children != [] {
      FoundIff(children[1..], c);
      assert children == [children[0]] + children[1..];
    }
  }

  /** Something other than white space. */
  predicate Says(text: string) { exists i :: 0 <= i < |text| && !White(text[i]) }

  lemma SaysIff(text: string)
    ensures Says(text) <==> Trim(text) != []
  {
    var pre, post := TrimIsExact(text);
    var t := Trim(text);
    hide Trim;
    if t != [] {
      assert text[|pre|] == t[0];
    } else {
      assert text == pre + post;
    }
  }

  /** A cancel takes effect exactly when its number, trimmed, is that of a child that
      has not ended, and the board accepts. */
  lemma CancelTakesEffectIff(children: seq<Child>, actions: seq<Action>, board: Board, i: nat)
    requires NumberedApart(children) && i < |actions| && actions[i].op == Some(Cancel)
    ensures TakesEffect(children, actions, board, i) <==>
      Child(Trim(actions[i].number), false) in children && board.accepts(i)
  {
    FoundIff(children, Child(Trim(actions[i].number), false));
    hide Find, Trim;
  }

  /** A modification takes effect exactly when its number, trimmed, is that of a child,
      the board accepts, and it has a title, a description or acceptance criteria. */
  lemma ModifyTakesEffectIff(children: seq<Child>, actions: seq<Action>, board: Board, i: nat)
    requires i < |actions| && actions[i].op == Some(Modify)
    ensures TakesEffect(children, actions, board, i) <==>
      && (exists c :: c in children && c.number == Trim(actions[i].number))
      && board.accepts(i)
      && (Says(actions[i].title) || Says(actions[i].description) || Says(actions[i].acceptance))
  {
    SaysIff(actions[i].title);
    SaysIff(actions[i].description);
    SaysIff(actions[i].acceptance);
    hide Trim, Says;
  }

  /** A plan of additions alone is admitted exactly up to the number allowed. */
  lemma {:induction false} OnlyAddsAdmittedIff(children: seq<Child>, actions: seq<Action>, cfg: Config)
    requires forall i :: 0 <= i < |actions| ==> actions[i].op == Some(Add)
    ensures Admitted(children, actions, cfg) <==> |actions| <= cfg.maxNew
  {
    AllAdds(actions);
    hide Find, Trim;
  }

  lemma {:induction false} AllAdds(actions: seq<Action>)
    requires forall i :: 0 <= i < |actions| ==> actions[i].op == Some(Add)
    ensures CountOp(actions, Add) == |actions|
  {
    if actions != [] {
      AllAdds(actions[..|actions| - 1]);
    }
  }
}
