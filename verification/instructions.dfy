/** The instructions as the program runs them: borrowed accounts written one after the other. Each is
    proved against its value-level counterpart. What an instruction leaves behind when it fails is
    unspecified, because the runtime discards it. */
module Instructions {
  import opened Common
  import opened StakeWeight
  import opened FeesSpec
  import Spec = InstructionsSpec
  import W = WeightTableSpec
  import WeightTableAccount
  import EpochSnapshotAccounts
  import B = BallotBoxSpec
  import BallotBoxAccount
  import BaseRewardRouterAccount
  import NcnRewardRouterAccount
  import E = EpochStateSpec
  import EpochStateAccount

  /** A reward receiver: an account without data. */
  class Receiver {
    var lamports: U64

    constructor (lamports: U64)
      ensures this.lamports == lamports
    {
      this.lamports := lamports;
    }

    /** A system transfer to somebody outside the epoch. */
    method Pay(amount: U64) returns (r: Result<()>)
      modifies this
      ensures match Spec.Withdraw(old(lamports), amount)
        case Ok(rest) => r.Ok? && lamports == rest
        case Err(e) => r == Err(e)
    {
      lamports :- CheckedSub(lamports, amount, InsufficientFunds);
      return Ok(());
    }
  }

  method ProcessAdminSetWeight(
    state: EpochStateAccount.EpochState,
    table: WeightTableAccount.WeightTable,
    mint: Key, weight: U128, slot: U64)
    returns (r: Result<()>)
    requires state.Shaped() && table.Shaped()
    modifies state, table.table
    ensures match Spec.SetWeight(old(state.State()), old(table.State()), mint, weight, slot)
      case Ok((s, t)) => r.Ok? && state.State() == s && table.State() == t
      case Err(e) => r == Err(e)
  {
    var listed := table.MintCount();
    if listed == 0 {
      return Err(TableNotInitialized);
    }
    var final := table.Finalized();
    if final {
      return Err(WeightTableFinalized);
    }
    var _ :- table.SetWeight(mint, weight, slot);
    var weights := table.WeightCount();
    var mints := table.MintCount();
    if weights > U64_MAX || mints > U64_MAX {
      return Err(CastToU64);
    }
    state.UpdateSetWeight(weights, mints);
    return Ok(());
  }

  method ProcessReallocOperatorSnapshot(
    state: EpochStateAccount.EpochState,
    snapshot: EpochSnapshotAccounts.EpochSnapshot,
    operatorSnapshot: EpochSnapshotAccounts.OperatorSnapshot,
    operator: Key, index: E.OperatorIndex, isActive: bool, feeBps: U16, slot: U64)
    returns (r: Result<()>)
    requires state.Shaped() && operatorSnapshot.Shaped()
    modifies state, state.operatorStatus, state.operatorProgress
    modifies snapshot, operatorSnapshot, operatorSnapshot.delegations
    ensures match Spec.ReallocOperator(old(state.State()), old(snapshot.State()), operator, index, isActive, feeBps,
                                       slot)
      case Ok((s, e, o)) => r.Ok? && state.State() == s && snapshot.State() == e && operatorSnapshot.State() == o
      case Err(e) => r == Err(e)
  {
    var _ :- operatorSnapshot.Initialize(operator, index, isActive, feeBps, snapshot.vaultCount, slot);
    if !isActive {
      var _ :- snapshot.IncrementOperatorRegistration(slot, 0, ZERO_WEIGHTS);
    }
    r := state.UpdateReallocOperatorSnapshot(index, isActive);
  }

  method ProcessSnapshotVaultOperatorDelegation(
    state: EpochStateAccount.EpochState,
    table: WeightTableAccount.WeightTable,
    snapshot: EpochSnapshotAccounts.EpochSnapshot,
    operatorSnapshot: EpochSnapshotAccounts.OperatorSnapshot,
    delegated: Spec.Delegated, slot: U64)
    returns (r: Result<()>)
    requires state.Shaped() && table.Shaped() && operatorSnapshot.Shaped()
    modifies state, state.operatorProgress, snapshot, operatorSnapshot, operatorSnapshot.delegations
    ensures match Spec.SnapshotDelegation(old(state.State()), old(table.State()), old(snapshot.State()),
                                          old(operatorSnapshot.State()),
                                          delegated, slot)
      case Ok((s, e, o)) => r.Ok? && state.State() == s && snapshot.State() == e && operatorSnapshot.State() == o
      case Err(e) => r == Err(e)
  {
    var delegation :- Spec.DelegationOf(W.Table(table.vaultCount, table.vaultRegistry[..], table.table[..]), delegated);
    var _ :- operatorSnapshot.IncrementVaultOperatorDelegationRegistration(slot, delegation);
    var finalized := operatorSnapshot.registered == operatorSnapshot.delegationCount;
    if finalized {
      var _ :- snapshot.IncrementOperatorRegistration(slot, operatorSnapshot.validDelegations,
                                                      operatorSnapshot.weights);
    }
    if operatorSnapshot.ncnOperatorIndex >= MAX_OPERATORS {
      return Err(IndexOutOfBounds);
    }
    r := state.UpdateSnapshotVaultOperatorDelegation(operatorSnapshot.ncnOperatorIndex, finalized);
  }

  method ProcessCastVote(
    state: EpochStateAccount.EpochState,
    ballotBox: BallotBoxAccount.BallotBox,
    snapshot: EpochSnapshotAccounts.EpochSnapshot,
    operatorSnapshot: EpochSnapshotAccounts.OperatorSnapshot,
    threshold: B.Threshold, root: Digest, slot: U64, validSlots: U64)
    returns (r: Result<()>)
    requires state.Shaped() && ballotBox.Shaped() && operatorSnapshot.Shaped()
    modifies state, ballotBox, ballotBox.operatorVotes, ballotBox.ballotTallies
    ensures match Spec.CastVote(old(state.State()), old(ballotBox.State()), old(snapshot.State()),
                                old(operatorSnapshot.State()),
                                threshold, root, slot, validSlots)
      case Ok((s, box)) => r.Ok? && state.State() == s && ballotBox.State() == box
      case Err(e) => r == Err(e)
  {
    if snapshot.operatorsRegistered != snapshot.operatorCount {
      return Err(EpochSnapshotNotFinalized);
    }
    var total := snapshot.weights.total;
    var weights := operatorSnapshot.weights;
    var _ :- ballotBox.CastVote(operatorSnapshot.operator, B.NewBallot(root), weights, slot, validSlots);
    var _ :- ballotBox.TallyVotes(threshold, total, slot);
    var reached := ballotBox.IsConsensusReached();
    if reached {
      var _ :- ballotBox.GetWinningBallotTally();
    }
    state.UpdateCastVote(ballotBox.operatorsVoted, reached, slot);
    return Ok(());
  }

  method ProcessAdminSetTieBreaker(
    state: EpochStateAccount.EpochState,
    ballotBox: BallotBoxAccount.BallotBox,
    root: Digest, currentEpoch: U64, epochsBeforeStall: U64, slot: U64)
    returns (r: Result<()>)
    requires state.Shaped() && ballotBox.Shaped()
    modifies state, ballotBox
    ensures match Spec.SetTieBreaker(old(state.State()), old(ballotBox.State()), root, currentEpoch, epochsBeforeStall,
                                     slot)
      case Ok((s, box)) => r.Ok? && state.State() == s && ballotBox.State() == box
      case Err(e) => r == Err(e)
  {
    var _ :- ballotBox.SetTieBreakerBallot(root, currentEpoch, epochsBeforeStall);
    var reached := ballotBox.IsConsensusReached();
    state.UpdateSetTieBreaker(reached, slot);
    return Ok(());
  }

  method ProcessRouteBaseRewards(
    state: EpochStateAccount.EpochState,
    snapshot: EpochSnapshotAccounts.EpochSnapshot,
    ballotBox: BallotBoxAccount.BallotBox,
    router: BaseRewardRouterAccount.BaseRewardRouter,
    receiver: Receiver,
    rent: U64, maxIterations: U16, slot: U64, validSlots: U64)
    returns (r: Result<()>)
    requires state.Shaped() && ballotBox.Shaped() && router.Shaped()
    modifies state, router, router.baseRewards, router.ncnRewards, router.routes
    ensures match Spec.RouteBase(old(state.State()), old(router.State()), old(ballotBox.State()), old(snapshot.fees),
                                 rent,
                                 old(receiver.lamports), maxIterations, slot, validSlots)
      case Ok((s, router')) => r.Ok? && state.State() == s && router.State() == router'
      case Err(e) => r == Err(e)
  {
    var open :- ballotBox.IsVotingValid(slot, validSlots);
    if open {
      return Err(VotingIsNotOver);
    }
    var still := router.StillRouting();
    if !still {
      var _ :- router.RouteIncomingRewards(rent, receiver.lamports);
      var _ :- router.RouteRewardPool(snapshot.fees);
    }
    var _ :- router.RouteNcnFeeGroupRewards(ballotBox, maxIterations);
    state.UpdateRouteBaseRewards(router.totalRewards);
    return Ok(());
  }

  method ProcessRouteNcnRewards(
    state: EpochStateAccount.EpochState,
    operatorSnapshot: EpochSnapshotAccounts.OperatorSnapshot,
    router: NcnRewardRouterAccount.NcnRewardRouter,
    receiver: Receiver,
    k: E.RouterIndex, rent: U64, maxIterations: U16)
    returns (r: Result<()>)
    requires state.Shaped() && operatorSnapshot.Shaped() && router.Shaped() && router.group == E.GroupOf(k)
    modifies state, state.ncnProgress, router, router.routes
    ensures match Spec.RouteNcn(old(state.State()), old(router.State()), old(operatorSnapshot.State()), k, rent,
                                old(receiver.lamports), maxIterations)
      case Ok((s, router')) => r.Ok? && state.State() == s && router.State() == router'
      case Err(e) => r == Err(e)
  {
    var still := router.StillRouting();
    if !still {
      var _ :- router.RouteIncomingRewards(rent, receiver.lamports);
      var _ :- router.RouteOperatorRewards(operatorSnapshot);
    }
    var _ :- router.RouteRewardPool(operatorSnapshot, maxIterations);
    state.UpdateRouteNcnRewards(k, router.totalRewards);
    return Ok(());
  }

  method ProcessDistributeBaseRewards(
    state: EpochStateAccount.EpochState,
    router: BaseRewardRouterAccount.BaseRewardRouter,
    receiver: Receiver,
    group: Group)
    returns (r: Result<()>)
    requires state.Shaped() && router.Shaped()
    modifies state, router, router.baseRewards, receiver
    ensures match Spec.DistributeBase(old(state.State()), old(router.State()), old(receiver.lamports), group)
      case Ok((s, router', balance)) =>
        r.Ok? && state.State() == s && router.State() == router' && receiver.lamports == balance
      case Err(e) => r == Err(e)
  {
    var still := router.StillRouting();
    if still {
      return Err(RouterStillRouting);
    }
    var rewards :- router.DistributeBaseFeeGroupRewards(group);
    if rewards > 0 {
      var _ :- receiver.Pay(rewards);
    }
    r := state.UpdateDistributeBaseRewards(rewards);
  }

  method ProcessDistributeBaseNcnRewardRoute(
    state: EpochStateAccount.EpochState,
    router: BaseRewardRouterAccount.BaseRewardRouter,
    receiver: Receiver,
    ncnReceiver: Receiver,
    group: Group, operator: Key)
    returns (r: Result<()>)
    requires state.Shaped() && router.Shaped() && receiver != ncnReceiver
    modifies state, router, router.routes, receiver, ncnReceiver
    ensures match Spec.DistributeBaseNcn(old(state.State()), old(router.State()), old(receiver.lamports),
                                         old(ncnReceiver.lamports),
                                         group, operator)
      case Ok((s, router', balance, ncnBalance)) =>
        && r.Ok? && state.State() == s && router.State() == router'
        && receiver.lamports == balance && ncnReceiver.lamports == ncnBalance
      case Err(e) => r == Err(e)
  {
    var still := router.StillRouting();
    if still {
      return Err(RouterStillRouting);
    }
    var rewards :- router.DistributeNcnFeeGroupRewardRoute(group, operator);
    if rewards > 0 {
      var _ :- receiver.Pay(rewards);
      ncnReceiver.lamports :- CheckedAdd64(ncnReceiver.lamports, rewards);
    }
    r := state.UpdateDistributeBaseNcnRewards(rewards);
  }

  method ProcessDistributeNcnOperatorRewards(
    state: EpochStateAccount.EpochState,
    router: NcnRewardRouterAccount.NcnRewardRouter,
    receiver: Receiver,
    k: E.RouterIndex)
    returns (r: Result<()>)
    requires state.Shaped() && router.Shaped()
    modifies state, state.ncnProgress, router, receiver
    ensures match Spec.DistributeNcnOperator(old(state.State()), old(router.State()), old(receiver.lamports), k)
      case Ok((s, router', balance)) =>
        r.Ok? && state.State() == s && router.State() == router' && receiver.lamports == balance
      case Err(e) => r == Err(e)
  {
    var still := router.StillRouting();
    if still {
      return Err(RouterStillRouting);
    }
    var rewards :- router.DistributeOperatorRewards();
    if rewards > 0 {
      var _ :- receiver.Pay(rewards);
    }
    r := state.UpdateDistributeNcnRewards(k, rewards);
  }

  method ProcessDistributeNcnVaultRewards(
    state: EpochStateAccount.EpochState,
    router: NcnRewardRouterAccount.NcnRewardRouter,
    receiver: Receiver,
    k: E.RouterIndex, vault: Key)
    returns (r: Result<()>)
    requires state.Shaped() && router.Shaped()
    modifies state, state.ncnProgress, router, router.routes, receiver
    ensures match Spec.DistributeNcnVault(old(state.State()), old(router.State()), old(receiver.lamports), k, vault)
      case Ok((s, router', balance)) =>
        r.Ok? && state.State() == s && router.State() == router' && receiver.lamports == balance
      case Err(e) => r == Err(e)
  {
    var still := router.StillRouting();
    if still {
      return Err(RouterStillRouting);
    }
    var rewards :- router.DistributeVaultRewardRoute(vault);
    if rewards > 0 {
      var _ :- receiver.Pay(rewards);
    }
    r := state.UpdateDistributeNcnRewards(k, rewards);
  }

  /** `close_epoch_account` on the epoch state. */
  method ProcessCloseEpochAccount(
    state: EpochStateAccount.EpochState,
    kind: E.Closable, epochOf: U64 -> U64, epochsBeforeClose: U64, slot: U64)
    returns (r: Result<()>)
    requires state.Shaped()
    modifies state, state.operatorStatus, state.ncnRouterStatus
    ensures match Spec.CloseAccount(old(state.State()), kind, epochOf, epochsBeforeClose, slot)
      case Ok(s) => r.Ok? && state.State() == s
      case Err(e) => r == Err(e)
  {
    var enough :- state.CanCloseEpochAccounts(epochOf, epochsBeforeClose, slot);
    if !enough {
      return Err(CannotCloseEarly);
    }
    state.SetIsClosing();
    if kind.EpochStateKind? {
      var all := state.AreAllClosed();
      if !all {
        return Err(CannotCloseEpochState);
      }
    }
    state.MarkClosed(kind);
    return Ok(());
  }

  /** The receiver of a closed router: what it holds above rent goes to the DAO, the rent to the payer. */
  method CloseReceiver(receiver: Receiver, dao: Receiver, payer: Receiver, rent: U64) returns (r: Result<()>)
    requires receiver != dao && receiver != payer && dao != payer
    modifies receiver, dao, payer
    ensures r.Ok? <==>
      && Spec.CloseReceiver(old(receiver.lamports), rent).Ok?
      && old(dao.lamports) as int + (old(receiver.lamports) as int - rent as int) <= U64_MAX
      && old(payer.lamports) as nat + rent as nat <= U64_MAX
    ensures r.Ok? ==>
      && receiver.lamports == 0
      && dao.lamports as nat == old(dao.lamports) as nat + Spec.CloseReceiver(old(receiver.lamports), rent).value as nat
      && payer.lamports as nat == old(payer.lamports) as nat + rent as nat
  {
    var delta: U64 := if receiver.lamports >= rent then receiver.lamports - rent else 0;
    if delta > 0 {
      var swept := receiver.Pay(delta);
      assert swept.Ok?;
      dao.lamports :- CheckedAdd64(dao.lamports, delta);
    }
    var _ :- receiver.Pay(rent);
    payer.lamports :- CheckedAdd64(payer.lamports, rent);
    return Ok(());
  }
}
