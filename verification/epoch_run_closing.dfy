/** The invariants through closing, and through any step of a run. */
module EpochRunClosing {
  import opened Common
  import opened Sums
  import opened EpochRunSpec
  import opened EpochRunInvariants
  import opened EpochRunSnapshots
  import opened EpochRunOperators
  import opened EpochRunVotes
  import opened EpochRunRewards
  import E = EpochStateSpec

  lemma {:induction false} CloseWeightTableKeeps(c: Params, w: World)
    requires ParamsOk(c) && Inv(c, w) && DoCloseWeightTable(c, w).Ok?
    ensures Inv(c, DoCloseWeightTable(c, w).value)
  {
  }

  lemma {:induction false} CloseEpochSnapshotKeeps(c: Params, w: World)
    requires ParamsOk(c) && Inv(c, w) && DoCloseEpochSnapshot(c, w).Ok?
    ensures Inv(c, DoCloseEpochSnapshot(c, w).value)
  {
  }

  /** Closing an account leaves its data where the sums and the votes refer to it. */
  lemma {:induction false} ClosedOperatorStays(c: Params, w: World, i: E.OperatorIndex)
    requires Inv(c, w) && w.operators[i].Live?
    ensures var operators' := w.operators[i := Closed(w.operators[i].data)];
      && OperatorsOk(c, operators', w.state.operators, OperatorCount(w.snapshot), VaultCount(w.snapshot))
      && FinalFlags(operators') == FinalFlags(w.operators)
      && FinalValid(operators') == FinalValid(w.operators)
      && (forall m :: FinalWeights(operators', m) == FinalWeights(w.operators, m))
      && w.operators[i].data.ncnOperatorIndex == i
  {
    assert OperatorAccountOk(c, i, w.operators[i], w.state.operators[i], OperatorCount(w.snapshot),
                             VaultCount(w.snapshot));
    OneOperator(c, w.operators, w.state.operators, OperatorCount(w.snapshot), VaultCount(w.snapshot), i,
                Closed(w.operators[i].data), w.state.operators[i]);
    SameAt(w.state.operators, i);
  }

  lemma {:induction false} ClosedOperatorVotesAndRouters(c: Params, w: World, i: E.OperatorIndex)
    requires Inv(c, w) && w.operators[i].Live?
    ensures var operators' := w.operators[i := Closed(w.operators[i].data)];
      && NcnOk(c, w.ncn, operators', w.ncnBalances, w.state.ncn, w.grown)
      && (w.box.Held() && VotesOk(c, w.operators, w.box.data) ==> VotesOk(c, operators', w.box.data))
  {
    var operators' := w.operators[i := Closed(w.operators[i].data)];
    forall k: E.RouterIndex
      ensures NcnRouterOk(c, k, w.ncn[k], operators'[E.OperatorOf(k)], w.ncnBalances[k], w.state.ncn[k], w.grown[k])
    {
      assert NcnRouterOk(c, k, w.ncn[k], w.operators[E.OperatorOf(k)], w.ncnBalances[k], w.state.ncn[k], w.grown[k]);
    }
    if w.box.Held() && VotesOk(c, w.operators, w.box.data) {
      forall v | 0 <= v < w.box.data.operatorsVoted && v < |w.box.data.votes|
        ensures VoteOk(c, operators', w.box.data.votes[v])
      {
        assert VoteOk(c, w.operators, w.box.data.votes[v]);
      }
    }
  }

  lemma {:induction false} CloseOperatorKeeps(c: Params, w: World, i: E.OperatorIndex)
    requires ParamsOk(c) && Inv(c, w) && DoCloseOperator(c, w, i).Ok?
    ensures Inv(c, DoCloseOperator(c, w, i).value)
  {
    var w' := DoCloseOperator(c, w, i).value;
    ClosedOperatorStays(c, w, i);
    ClosedOperatorVotesAndRouters(c, w, i);
    OneOperatorMirrored(w.operators, w.state.status.operators, i, w'.operators[i], E.Closed);
    if w.snapshot.Held() {
      assert SumsOf(w.snapshot.data, w'.operators);
    }
  }

  lemma {:induction false} CloseBallotBoxKeeps(c: Params, w: World)
    requires ParamsOk(c) && Inv(c, w) && DoCloseBallotBox(c, w).Ok?
    ensures Inv(c, DoCloseBallotBox(c, w).value)
  {
  }

  lemma {:induction false} CloseBaseRouterKeeps(c: Params, w: World)
    requires ParamsOk(c) && Inv(c, w) && DoCloseBaseRouter(c, w).Ok?
    ensures Inv(c, DoCloseBaseRouter(c, w).value)
  {
  }

  /** A closed receiver takes nothing with it. */
  lemma {:induction false} ClosedRouterOk(c: Params, w: World, k: E.RouterIndex, above: nat)
    requires Inv(c, w) && w.ncn[k].Live? && w.ncnBalances[k] as nat == c.rent as nat + above
    ensures NcnOk(c, w.ncn[k := Closed(w.ncn[k].data)], w.operators, w.ncnBalances[k := 0], w.state.ncn, w.grown)
    ensures Sum(AboveRents(w.ncn[k := Closed(w.ncn[k].data)], w.ncnBalances[k := 0], c.rent)) + above
         == Sum(AboveRents(w.ncn, w.ncnBalances, c.rent))
  {
    assert NcnRouterOk(c, k, w.ncn[k], w.operators[E.OperatorOf(k)], w.ncnBalances[k], w.state.ncn[k], w.grown[k]);
    OneRouter(c, w.ncn, w.operators, w.ncnBalances, w.state.ncn, w.grown, k, Closed(w.ncn[k].data), 0, w.state.ncn[k],
              w.grown[k]);
    SameAt(w.grown, k);
    SameAt(w.state.ncn, k);
    OneReceiver(w.ncn, w.ncnBalances, c.rent, k, Closed(w.ncn[k].data), 0);
  }

  lemma {:induction false} ClosedRouterWorld(c: Params, w: World, k: E.RouterIndex)
    requires DoCloseNcnRouter(c, w, k).Ok?
    ensures w.ncn[k].Live? && w.ncnBalances[k] >= c.rent
    ensures E.CanClose(w.state, c.epochOf, c.epochsBeforeClose, w.slot) == Ok(true)
    ensures DoCloseNcnRouter(c, w, k).value
         == w.(state := w.state.(isClosing := true,
                                 status := w.state.status.(ncnRouters := w.state.status.ncnRouters[k := E.Closed])),
               ncn := w.ncn[k := Closed(w.ncn[k].data)], ncnBalances := w.ncnBalances[k := 0],
               swept := w.swept + (w.ncnBalances[k] - c.rent))
  {
  }

  lemma {:induction false} CloseNcnRouterKeeps(c: Params, w: World, k: E.RouterIndex)
    requires ParamsOk(c) && Inv(c, w) && DoCloseNcnRouter(c, w, k).Ok?
    ensures Inv(c, DoCloseNcnRouter(c, w, k).value)
  {
    ClosedRouterWorld(c, w, k);
    ClosedRouterOk(c, w, k, w.ncnBalances[k] - c.rent);
    OneRouterMirrored(w.ncn, w.state.status.ncnRouters, k, Closed(w.ncn[k].data), E.Closed);
  }

  lemma {:induction false} CloseEpochStateKeeps(c: Params, w: World)
    requires ParamsOk(c) && Inv(c, w) && DoCloseEpochState(c, w).Ok?
    ensures Inv(c, DoCloseEpochState(c, w).value)
  {
  }

  /** Weights and snapshots. */
  predicate BuildsSnapshots(e: Event) {
    || e.Tick? || e.InitWeightTable? || e.ReallocWeightTable? || e.SetWeight?
    || e.InitEpochSnapshot? || e.InitOperatorSnapshot? || e.ReallocOperatorSnapshot? || e.SnapshotDelegation?
  }

  /** Votes, and accounts that start out empty. */
  predicate VotesOrOpens(e: Event) {
    || e.InitBallotBox? || e.ReallocBallotBox? || e.CastVote? || e.SetTieBreaker?
    || e.InitBaseRouter? || e.ReallocBaseRouter? || e.InitNcnRouter?
    || e.DepositBase? || e.DepositNcn?
  }

  /** Routing and payouts. */
  predicate MovesRewards(e: Event) {
    || e.RouteBase? || e.DistributeBase? || e.DistributeBaseNcn?
    || e.RouteNcn? || e.DistributeNcnOperator? || e.DistributeNcnVault?
  }

  /** Closing. */
  predicate Closes(e: Event) {
    || e.CloseWeightTable? || e.CloseEpochSnapshot? || e.CloseOperatorSnapshot? || e.CloseBallotBox?
    || e.CloseBaseRouter? || e.CloseNcnRouter? || e.CloseEpochState?
  }

  lemma {:induction false} BuildsSnapshotsKeeps(c: Params, w: World, e: Event)
    requires ParamsOk(c) && Inv(c, w) && BuildsSnapshots(e) && Instruction(c, w, e).Ok?
    ensures Inv(c, Instruction(c, w, e).value)
  {
    match e
    case Tick(slots) => TickKeeps(c, w, slots);
    case InitWeightTable => InitWeightTableKeeps(c, w);
    case ReallocWeightTable(vaultCount, vaults, mints) => ReallocWeightTableKeeps(c, w, vaultCount, vaults, mints);
    case SetWeight(mint, weight) => SetWeightKeeps(c, w, mint, weight);
    case InitEpochSnapshot(fees, operatorCount) => InitEpochSnapshotKeeps(c, w, fees, operatorCount);
    case InitOperatorSnapshot(i) => InitOperatorKeeps(c, w, i);
    case ReallocOperatorSnapshot(i, isActive, feeBps) => ReallocOperatorKeeps(c, w, i, isActive, feeBps);
    case SnapshotDelegation(i, delegated) => SnapshotDelegationKeeps(c, w, i, delegated);
  }

  lemma {:induction false} OpensAccountsKeeps(c: Params, w: World, e: Event)
    requires ParamsOk(c) && Inv(c, w) && Instruction(c, w, e).Ok?
    requires e.InitBallotBox? || e.ReallocBallotBox? || e.InitBaseRouter? || e.ReallocBaseRouter? || e.InitNcnRouter?
    ensures Inv(c, Instruction(c, w, e).value)
  {
    match e
    case InitBallotBox => InitBallotBoxKeeps(c, w);
    case ReallocBallotBox => ReallocBallotBoxKeeps(c, w);
    case InitBaseRouter => InitBaseRouterKeeps(c, w);
    case ReallocBaseRouter => ReallocBaseRouterKeeps(c, w);
    case InitNcnRouter(k) => InitNcnRouterKeeps(c, w, k);
  }

  lemma {:induction false} VotesAndDepositsKeeps(c: Params, w: World, e: Event)
    requires ParamsOk(c) && Inv(c, w) && Instruction(c, w, e).Ok?
    requires e.CastVote? || e.SetTieBreaker? || e.DepositBase? || e.DepositNcn?
    ensures Inv(c, Instruction(c, w, e).value)
  {
    match e
    case CastVote(i, root) => CastVoteKeeps(c, w, i, root);
    case SetTieBreaker(root) => SetTieBreakerKeeps(c, w, root);
    case DepositBase(amount) => DepositBaseKeeps(c, w, amount);
    case DepositNcn(k, amount) => DepositNcnKeeps(c, w, k, amount);
  }

  lemma {:induction false} MovesBaseKeeps(c: Params, w: World, e: Event)
    requires ParamsOk(c) && Inv(c, w) && (e.RouteBase? || e.DistributeBase? || e.DistributeBaseNcn?)
    requires Instruction(c, w, e).Ok?
    ensures Inv(c, Instruction(c, w, e).value)
  {
    match e
    case RouteBase(maxIterations) => RouteBaseKeeps(c, w, maxIterations);
    case DistributeBase(group) => DistributeBaseKeeps(c, w, group);
    case DistributeBaseNcn(k) => DistributeBaseNcnKeeps(c, w, k);
  }

  lemma {:induction false} MovesNcnKeeps(c: Params, w: World, e: Event)
    requires ParamsOk(c) && Inv(c, w) && (e.RouteNcn? || e.DistributeNcnOperator? || e.DistributeNcnVault?)
    requires Instruction(c, w, e).Ok?
    ensures Inv(c, Instruction(c, w, e).value)
  {
    match e
    case RouteNcn(k, maxIterations) => RouteNcnKeeps(c, w, k, maxIterations);
    case DistributeNcnOperator(k) => DistributeNcnOperatorKeeps(c, w, k);
    case DistributeNcnVault(k, vault) => DistributeNcnVaultKeeps(c, w, k, vault);
  }

  lemma {:induction false} ClosesSharedKeeps(c: Params, w: World, e: Event)
    requires ParamsOk(c) && Inv(c, w)
    requires e.CloseWeightTable? || e.CloseEpochSnapshot? || e.CloseBallotBox? || e.CloseEpochState?
    requires Instruction(c, w, e).Ok?
    ensures Inv(c, Instruction(c, w, e).value)
  {
    match e
    case CloseWeightTable => CloseWeightTableKeeps(c, w);
    case CloseEpochSnapshot => CloseEpochSnapshotKeeps(c, w);
    case CloseBallotBox => CloseBallotBoxKeeps(c, w);
    case CloseEpochState => CloseEpochStateKeeps(c, w);
  }

  lemma {:induction false} ClosesOthersKeeps(c: Params, w: World, e: Event)
    requires ParamsOk(c) && Inv(c, w) && (e.CloseOperatorSnapshot? || e.CloseBaseRouter? || e.CloseNcnRouter?)
    requires Instruction(c, w, e).Ok?
    ensures Inv(c, Instruction(c, w, e).value)
  {
    match e
    case CloseOperatorSnapshot(i) => CloseOperatorKeeps(c, w, i);
    case CloseBaseRouter => CloseBaseRouterKeeps(c, w);
    case CloseNcnRouter(k) => CloseNcnRouterKeeps(c, w, k);
  }

  /** Every event that can happen keeps every invariant; one that fails changes nothing. */
  lemma {:induction false} StepKeeps(c: Params, w: World, e: Event)
    requires ParamsOk(c) && Inv(c, w)
    ensures Inv(c, Step(c, w, e))
  {
    if Instruction(c, w, e).Ok? {
      if BuildsSnapshots(e) {
        BuildsSnapshotsKeeps(c, w, e);
      } else if e.CastVote? || e.SetTieBreaker? || e.DepositBase? || e.DepositNcn? {
        VotesAndDepositsKeeps(c, w, e);
      } else if VotesOrOpens(e) {
        OpensAccountsKeeps(c, w, e);
      } else if e.RouteBase? || e.DistributeBase? || e.DistributeBaseNcn? {
        MovesBaseKeeps(c, w, e);
      } else if MovesRewards(e) {
        MovesNcnKeeps(c, w, e);
      } else if e.CloseOperatorSnapshot? || e.CloseBaseRouter? || e.CloseNcnRouter? {
        ClosesOthersKeeps(c, w, e);
      } else {
        ClosesSharedKeeps(c, w, e);
      }
    }
  }

  /** So does every run. */
  lemma {:induction false} RunKeeps(c: Params, w: World, events: seq<Event>)
    requires ParamsOk(c) && Inv(c, w)
    ensures Inv(c, Run(c, w, events))
    decreases |events|
  {
    if events != [] {
      RunKeeps(c, w, events[..|events| - 1]);
      StepKeeps(c, Run(c, w, events[..|events| - 1]), events[|events| - 1]);
    }
  }

  /** The states an epoch can be in. */
  ghost predicate Reachable(c: Params, w: World) {
    exists slot: U64, events :: 0 < slot < E.NO_CONSENSUS && w == Run(c, Start(slot), events)
  }

  lemma {:induction false} ReachableInv(c: Params, w: World)
    requires ParamsOk(c) && Reachable(c, w)
    ensures Inv(c, w)
  {
    var slot: U64, events :| 0 < slot < E.NO_CONSENSUS && w == Run(c, Start(slot), events);
    StartInv(c, slot);
    RunKeeps(c, Start(slot), events);
  }
}
