/** The counters of the epoch state that no other account relies on: over every run they shadow the
    accounts they stand for. */
module EpochRunCounters {
  import opened Common
  import opened FeesSpec
  import opened InstructionsSpec
  import opened EpochRunSpec
  import opened EpochRunInvariants
  import opened EpochRunClosing
  import Base = BaseRewardRouterSpec
  import E = EpochStateSpec

  /** All rewards the base router ever took in. */
  function BaseTotal(base: Account<Base.Router>): nat {
    if base.Held() then base.data.books.total else 0
  }

  /** `voters` operators were counted when the ballot box was made. */
  ghost predicate Counted(w: World, voters: nat) {
    && w.state.status.epochState == (if w.stateClosed then E.Closed else E.Created)
    && w.state.operatorCount == OperatorCount(w.snapshot)
    && (!w.table.Held() ==> w.state.vaultCount == 0 && w.state.setWeight == E.Progress(0, 0))
    && (!w.snapshot.Held() ==> w.state.snapshot == E.Progress(0, 0))
    && w.state.voting.total == (if w.box.Held() then voters else 0)
    && w.state.validation == w.state.upload == (if w.box.Held() then E.Progress(0, 1) else E.Progress(0, 0))
    && w.state.total.total == BaseTotal(w.base)
  }

  /** The operators of the epoch snapshot, if there was one, when the ballot box was made. */
  function VotersExpected(c: Params, start: World, events: seq<Event>): nat
    decreases |events|
  {
    if events == [] then 0
    else
      var before, e := events[..|events| - 1], events[|events| - 1];
      var w := Run(c, start, before);
      if e.ReallocBallotBox? && Instruction(c, w, e).Ok? then OperatorCount(w.snapshot)
      else VotersExpected(c, start, before)
  }

  lemma {:induction false} TablesCount(c: Params, w: World, e: Event, voters: nat)
    requires Counted(w, voters) && Instruction(c, w, e).Ok?
    requires e.Tick? || e.InitWeightTable? || e.ReallocWeightTable? || e.SetWeight?
    ensures Counted(Instruction(c, w, e).value, voters)
  {
  }

  lemma {:induction false} OperatorCounts(c: Params, w: World, i: E.OperatorIndex, isActive: bool, feeBps: Bps,
                                          voters: nat)
    requires Counted(w, voters) && DoReallocOperator(c, w, i, isActive, feeBps).Ok?
    ensures Counted(DoReallocOperator(c, w, i, isActive, feeBps).value, voters)
  {
  }

  lemma {:induction false} DelegationCounts(w: World, i: E.OperatorIndex, d: Delegated, voters: nat)
    requires Counted(w, voters) && DoSnapshotDelegation(w, i, d).Ok?
    ensures Counted(DoSnapshotDelegation(w, i, d).value, voters)
  {
  }

  lemma {:induction false} SnapshotsCount(c: Params, w: World, e: Event, voters: nat)
    requires Counted(w, voters) && Instruction(c, w, e).Ok?
    requires e.InitEpochSnapshot? || e.InitOperatorSnapshot? || e.ReallocOperatorSnapshot? || e.SnapshotDelegation?
    ensures Counted(Instruction(c, w, e).value, voters)
  {
    if e.ReallocOperatorSnapshot? {
      OperatorCounts(c, w, e.operator, e.isActive, e.feeBps, voters);
    } else if e.SnapshotDelegation? {
      DelegationCounts(w, e.operator, e.delegated, voters);
    }
  }

  lemma {:induction false} VoteCounts(c: Params, w: World, i: E.OperatorIndex, root: Digest, voters: nat)
    requires Counted(w, voters) && DoCastVote(c, w, i, root).Ok?
    ensures Counted(DoCastVote(c, w, i, root).value, voters)
  {
  }

  lemma {:induction false} TieBreakCounts(c: Params, w: World, root: Digest, voters: nat)
    requires Counted(w, voters) && DoSetTieBreaker(c, w, root).Ok?
    ensures Counted(DoSetTieBreaker(c, w, root).value, voters)
  {
  }

  lemma {:induction false} VotingCounts(c: Params, w: World, e: Event, voters: nat)
    requires Counted(w, voters) && (e.CastVote? || e.SetTieBreaker? || e.DepositBase? || e.DepositNcn?)
    requires Instruction(c, w, e).Ok?
    ensures Counted(Instruction(c, w, e).value, voters)
  {
    if e.CastVote? {
      VoteCounts(c, w, e.operator, e.root, voters);
    } else if e.SetTieBreaker? {
      TieBreakCounts(c, w, e.root, voters);
    }
  }

  lemma {:induction false} OpeningCounts(c: Params, w: World, e: Event, voters: nat)
    requires Counted(w, voters) && Instruction(c, w, e).Ok?
    requires e.InitBallotBox? || e.InitBaseRouter? || e.ReallocBaseRouter? || e.InitNcnRouter?
    ensures Counted(Instruction(c, w, e).value, voters)
  {
  }

  lemma {:induction false} BoxCounts(c: Params, w: World, voters: nat)
    requires Counted(w, voters) && DoReallocBallotBox(c, w).Ok?
    ensures Counted(DoReallocBallotBox(c, w).value, OperatorCount(w.snapshot))
  {
  }

  lemma {:induction false} RoutingBaseCounts(c: Params, w: World, maxIterations: U16, voters: nat)
    requires Counted(w, voters) && DoRouteBase(c, w, maxIterations).Ok?
    ensures Counted(DoRouteBase(c, w, maxIterations).value, voters)
  {
  }

  lemma {:induction false} PayingBaseCounts(w: World, g: Group, voters: nat)
    requires Counted(w, voters) && DoDistributeBase(w, g).Ok?
    ensures Counted(DoDistributeBase(w, g).value, voters)
  {
  }

  lemma {:induction false} PayingRouteCounts(c: Params, w: World, k: E.RouterIndex, voters: nat)
    requires Counted(w, voters) && DoDistributeBaseNcn(c, w, k).Ok?
    ensures Counted(DoDistributeBaseNcn(c, w, k).value, voters)
  {
  }

  lemma {:induction false} MovingBaseCounts(c: Params, w: World, e: Event, voters: nat)
    requires Counted(w, voters) && (e.RouteBase? || e.DistributeBase? || e.DistributeBaseNcn?)
    requires Instruction(c, w, e).Ok?
    ensures Counted(Instruction(c, w, e).value, voters)
  {
    match e
    case RouteBase(maxIterations) => RoutingBaseCounts(c, w, maxIterations, voters);
    case DistributeBase(g) => PayingBaseCounts(w, g, voters);
    case DistributeBaseNcn(k) => PayingRouteCounts(c, w, k, voters);
  }

  lemma {:induction false} RoutingNcnCounts(c: Params, w: World, k: E.RouterIndex, maxIterations: U16, voters: nat)
    requires Counted(w, voters) && DoRouteNcn(c, w, k, maxIterations).Ok?
    ensures Counted(DoRouteNcn(c, w, k, maxIterations).value, voters)
  {
  }

  lemma {:induction false} PayingOperatorCounts(w: World, k: E.RouterIndex, voters: nat)
    requires Counted(w, voters) && DoDistributeNcnOperator(w, k).Ok?
    ensures Counted(DoDistributeNcnOperator(w, k).value, voters)
  {
  }

  lemma {:induction false} PayingVaultCounts(w: World, k: E.RouterIndex, vault: Named, voters: nat)
    requires Counted(w, voters) && DoDistributeNcnVault(w, k, vault).Ok?
    ensures Counted(DoDistributeNcnVault(w, k, vault).value, voters)
  {
  }

  lemma {:induction false} MovingNcnCounts(c: Params, w: World, e: Event, voters: nat)
    requires Counted(w, voters) && (e.RouteNcn? || e.DistributeNcnOperator? || e.DistributeNcnVault?)
    requires Instruction(c, w, e).Ok?
    ensures Counted(Instruction(c, w, e).value, voters)
  {
    match e
    case RouteNcn(k, maxIterations) => RoutingNcnCounts(c, w, k, maxIterations, voters);
    case DistributeNcnOperator(k) => PayingOperatorCounts(w, k, voters);
    case DistributeNcnVault(k, vault) => PayingVaultCounts(w, k, vault, voters);
  }

  lemma {:induction false} ClosingCounts(c: Params, w: World, e: Event, voters: nat)
    requires Counted(w, voters) && Instruction(c, w, e).Ok?
    requires e.CloseWeightTable? || e.CloseEpochSnapshot? || e.CloseBallotBox? || e.CloseEpochState?
    ensures Counted(Instruction(c, w, e).value, voters)
  {
  }

  lemma {:induction false} ClosingOperatorCounts(c: Params, w: World, i: E.OperatorIndex, voters: nat)
    requires Counted(w, voters) && DoCloseOperator(c, w, i).Ok?
    ensures Counted(DoCloseOperator(c, w, i).value, voters)
  {
  }

  lemma {:induction false} ClosingRoutersCounts(c: Params, w: World, e: Event, voters: nat)
    requires Counted(w, voters) && Instruction(c, w, e).Ok? && (e.CloseBaseRouter? || e.CloseNcnRouter?)
    ensures Counted(Instruction(c, w, e).value, voters)
  {
  }

  lemma {:induction false} StepCounts(c: Params, w: World, e: Event, voters: nat)
    requires Counted(w, voters) && Instruction(c, w, e).Ok?
    ensures Counted(Instruction(c, w, e).value, if e.ReallocBallotBox? then OperatorCount(w.snapshot) else voters)
  {
    if e.ReallocBallotBox? {
      BoxCounts(c, w, voters);
    } else if e.Tick? || e.InitWeightTable? || e.ReallocWeightTable? || e.SetWeight? {
      TablesCount(c, w, e, voters);
    } else if BuildsSnapshots(e) {
      SnapshotsCount(c, w, e, voters);
    } else if e.CastVote? || e.SetTieBreaker? || e.DepositBase? || e.DepositNcn? {
      VotingCounts(c, w, e, voters);
    } else if VotesOrOpens(e) {
      OpeningCounts(c, w, e, voters);
    } else if e.RouteBase? || e.DistributeBase? || e.DistributeBaseNcn? {
      MovingBaseCounts(c, w, e, voters);
    } else if MovesRewards(e) {
      MovingNcnCounts(c, w, e, voters);
    } else if e.CloseOperatorSnapshot? {
      ClosingOperatorCounts(c, w, e.operator, voters);
    } else if e.CloseBaseRouter? || e.CloseNcnRouter? {
      ClosingRoutersCounts(c, w, e, voters);
    } else {
      ClosingCounts(c, w, e, voters);
    }
  }

  /** At every point of every run the epoch state says whether it was closed itself, counts the operators
      of the epoch snapshot and the rewards of the base router, expects the votes of the operators there
      were when the ballot box was made, and leaves the two counters nobody uses where they start. */
  lemma {:induction false} RunCounts(c: Params, slot: U64, events: seq<Event>)
    ensures Counted(Run(c, Start(slot), events), VotersExpected(c, Start(slot), events))
    decreases |events|
  {
    if events != [] {
      var before, e := events[..|events| - 1], events[|events| - 1];
      var w := Run(c, Start(slot), before);
      RunCounts(c, slot, before);
      if Instruction(c, w, e).Ok? {
        StepCounts(c, w, e, VotersExpected(c, Start(slot), before));
      }
    }
  }
}
