/** For which pulls nothing that names the node is passed over. */
module BoardBusCoverage {
  import opened Wrappers
  import opened BoardBus

  /** What the pulls of a run meet: at most `bound` entries behind the watermark and,
      unless `between`, none appended between the reading of the page and that of the
      latest number. */
  ghost predicate Fits(s: State, e: Event, bound: nat, between: bool) {
    e.Sync? ==> |Newer(s.ledger, s.wake.watermark)| <= bound && (between || e.late == [])
  }

  ghost predicate FittingRun(es: seq<Event>, bound: nat, between: bool) {
    forall k :: 0 <= k < |es| ==> Fits(Run(es[..k]), es[k], bound, between)
  }

  /** Every entry that names the node is covered, live and on disk, in every run of
      such pulls. */
  ghost predicate AlwaysCovers(bound: nat, between: bool) {
    forall es, x :: FittingRun(es, bound, between) && Mentioned(Run(es), x) ==> CoveredIn(Run(es), x)
  }

  lemma FittingIsWhole(es: seq<Event>, bound: nat)
    requires FittingRun(es, bound, false) && bound <= BOARD_SYNC_PULL_LIMIT
    ensures WholeRun(es)
  {
    hide Run;
    forall k | 0 <= k < |es| ensures Whole(Run(es[..k]), es[k]) {
      var s, e := Run(es[..k]), es[k];
      if e.Sync? {
        RunShape(es[..k]);
        assert Fits(s, e, bound, false);
        assert s.ledger + [] == s.ledger;
        CompleteIff(s.ledger, [], s.wake.watermark);
      }
    }
  }

  // ----- An entry appended between the two reads -----

  const LATE := Entry(1, "t", false, true)

  /** One pull on an empty ledger: the entry is on no page, and the watermark goes
      past it. */
  function AppendedBetween(): seq<Event> { [Sync([LATE], [], None)] }

  lemma AppendedBetweenPassesOver()
    ensures Mentioned(Run(AppendedBetween()), LATE) && !Covers(Run(AppendedBetween()).wake, LATE)
    ensures FittingRun(AppendedBetween(), 0, true)
  {
    var es := AppendedBetween();
    assert es[..0] == [] && Run([]) == Init();
    assert Page([], 0) == [] && SyncPage(EMPTY.Load(), [], []) == Progress(EMPTY.Load(), [], None);
    assert [] + [LATE] == [LATE] && Ascending([LATE]);
    assert Run(es) == Step(Init(), es[0]);
    assert Run(es).wake == EMPTY.Load().Advance(1) && Run(es).ledger == [LATE];
  }

  // ----- A page too many -----

  lemma {:induction false} AppendsOnly(n: nat)
    ensures |Appends(n)| == n && forall k :: 0 <= k < n ==> Appends(n)[k].Append?
  {
    if n > 0 {
      AppendsOnly(n - 1);
    }
  }

  lemma BacklogFits()
    ensures var n := BOARD_SYNC_PULL_LIMIT + 1; FittingRun(Appends(n) + [Sync([], [], None)], n, false)
  {
    var n := BOARD_SYNC_PULL_LIMIT + 1;
    var es := Appends(n) + [Sync([], [], None)];
    AppendsOnly(n);
    RunAppends(n);
    BacklogIs(n);
    BacklogIsNewer(n);
    assert es[..n] == Appends(n);
    hide Run, Appends, Backlog, Newer;
    forall k | 0 <= k < |es| ensures Fits(Run(es[..k]), es[k], n, false) {
      assert k < n ==> es[k] == Appends(n)[k];
    }
  }

  lemma FitsMore(es: seq<Event>, bound: nat, between: bool, more: nat)
    requires FittingRun(es, bound, between) && bound <= more
    ensures FittingRun(es, more, between)
  {
    hide Run, Newer;
    forall k | 0 <= k < |es| ensures Fits(Run(es[..k]), es[k], more, between) {
      assert Fits(Run(es[..k]), es[k], bound, between);
    }
  }

  /** Nothing that names the node is passed over, in every run whose pulls find at
      most `bound` new entries, if and only if nothing is appended between the two
      reads of a pull and `bound` is within a page. */
  lemma CoverageIff(bound: nat, between: bool)
    ensures AlwaysCovers(bound, between) <==> !between && bound <= BOARD_SYNC_PULL_LIMIT
  {
    if between {
      AppendedBetweenPassesOver();
      FitsMore(AppendedBetween(), 0, true, bound);
      hide Run, FittingRun, AppendedBetween, Mentioned;
      assert !CoveredIn(Run(AppendedBetween()), LATE);
    } else if bound > BOARD_SYNC_PULL_LIMIT {
      var es := Appends(BOARD_SYNC_PULL_LIMIT + 1) + [Sync([], [], None)];
      BacklogFits();
      FitsMore(es, BOARD_SYNC_PULL_LIMIT + 1, false, bound);
      TruncatedPagePassesOver();
      hide Run, FittingRun, Appends, Mentioned;
      var x :| Mentioned(Run(es), x) && !Covers(Run(es).wake, x);
      assert !CoveredIn(Run(es), x);
    } else {
      forall es, x | FittingRun(es, bound, between) && Mentioned(Run(es), x) ensures CoveredIn(Run(es), x) {
        FittingIsWhole(es, bound);
        NothingIsPassedOver(es, x);
      }
    }
  }
}
