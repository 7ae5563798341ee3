/** What the instructions of the program do to the accounts they are given (program/src), as values.
    Account lookup and signer checks are left to the run that calls them (epoch_run_spec.dfy). */
module InstructionsSpec {
  import opened Common
  import opened StakeWeight
  import opened FeesSpec
  import W = WeightTableSpec
  import S = EpochSnapshotSpec
  import B = BallotBoxSpec
  import Consensus
  import Base = BaseRewardRouterSpec
  import BaseTheorems = BaseRewardRouterTheorems
  import Ncn = NcnRewardRouterSpec
  import E = EpochStateSpec

  /** Keys that name something; the default key marks an empty slot everywhere. */
  type Named = k: Key | k != DEFAULT_KEY witness 1

  /** A fraction of the whole; the restaking program does not let an operator charge more. */
  type Bps = n: U16 | n <= MAX_BPS

  // ------------------------------------------------------------------
  // Weights and snapshots
  // ------------------------------------------------------------------

  /** `admin_set_weight`. */
  function SetWeight(state: E.State, table: W.Table, mint: Key, weight: U128, slot: U64): Result<(E.State, W.Table)> {
    if !table.TableInitialized() then Err(TableNotInitialized)
    else if table.Finalized() then Err(WeightTableFinalized)
    else
      var table' :- W.SetWeight(table, mint, weight, slot);
      if table'.WeightCount() > U64_MAX || table'.MintCount() > U64_MAX then Err(CastToU64)
      else Ok((E.SetWeight(state, table'.WeightCount(), table'.MintCount()), table'))
  }

  /** `realloc_operator_snapshot`, once the account has its full size. */
  function ReallocOperator(state: E.State, snapshot: S.EpochSnapshot, operator: Key, index: E.OperatorIndex,
                           isActive: bool,
                           feeBps: U16, slot: U64): Result<(E.State, S.EpochSnapshot, S.OperatorSnapshot)>
  {
    var o :- S.InitOperator(operator, index, isActive, feeBps, snapshot.vaultCount, slot);
    var snapshot' :- if isActive then Ok(snapshot) else S.RegisterOperator(snapshot, slot, 0, ZERO_WEIGHTS);
    var state' :- E.ReallocOperatorSnapshot(state, index, isActive);
    Ok((state', snapshot', o))
  }

  /** What a vault delegated, seen by the program: the stake only counts while all tickets are active. */
  datatype Delegated = Delegated(vault: Named, vaultIndex: U64, mint: Key, isActive: bool, security: U64)

  /** `calculate_total_stake_weight`: exact, but it must fit 128 bits. */
  function StakeOf(d: Delegated, weight: U128): Result<U128> {
    if !d.isActive then Ok(0)
    else if d.security * weight > U128_MAX then Err(ArithmeticOverflow)
    else Ok(d.security * weight)
  }

  /** The delegation that a snapshot registers. */
  function DelegationOf(table: W.Table, d: Delegated): Result<S.Delegation> {
    var entry :- W.GetEntry(table, d.mint);
    if !table.Registers(d.vaultIndex) then Err(VaultNotInRegistry)
    else
      var stake :- StakeOf(d, entry.weight);
      var weights :- Snapshot(entry.entry.group, stake, entry.entry.multiplierBps);
      Ok(S.Delegation(d.vault, d.vaultIndex, entry.entry.group, weights))
  }

  /** `snapshot_vault_operator_delegation`: the last delegation of an operator also registers it. */
  function SnapshotDelegation(state: E.State, table: W.Table, snapshot: S.EpochSnapshot, o: S.OperatorSnapshot,
                              d: Delegated, slot: U64)
    : Result<(E.State, S.EpochSnapshot, S.OperatorSnapshot)>
  {
    var delegation :- DelegationOf(table, d);
    var o' :- S.RegisterDelegation(o, slot, delegation);
    var snapshot' :- if o'.Finalized() then S.RegisterOperator(snapshot, slot, o'.validDelegations, o'.weights)
                     else Ok(snapshot);
    if o'.ncnOperatorIndex >= MAX_OPERATORS then Err(IndexOutOfBounds)
    else
      var state' :- E.SnapshotDelegation(state, o'.ncnOperatorIndex, o'.Finalized());
      Ok((state', snapshot', o'))
  }

  // ------------------------------------------------------------------
  // Votes
  // ------------------------------------------------------------------

  /** `cast_vote`: only on a finalized snapshot; cast, tally, then tell the epoch state. */
  function CastVote(state: E.State, box: B.Box, snapshot: S.EpochSnapshot, o: S.OperatorSnapshot, th: B.Threshold,
                    root: Digest, slot: U64, validSlots: U64): Result<(E.State, B.Box)>
  {
    if !snapshot.Finalized() then Err(EpochSnapshotNotFinalized)
    else
      var box' :- Consensus.Vote(box, th, snapshot.weights.total, o.operator, B.NewBallot(root), o.weights, slot,
                                 validSlots);
      var _ :- if box'.IsConsensusReached() then B.GetWinningTally(box') else Ok(B.EMPTY_TALLY);
      Ok((E.CastVote(state, box'.operatorsVoted, box'.IsConsensusReached(), slot), box'))
  }

  /** `admin_set_tie_breaker`. */
  function SetTieBreaker(state: E.State, box: B.Box, root: Digest, currentEpoch: U64, epochsBeforeStall: U64, slot: U64)
    : Result<(E.State, B.Box)>
  {
    var box' :- B.SetTieBreaker(box, root, currentEpoch, epochsBeforeStall);
    Ok((E.SetTieBreaker(state, box'.IsConsensusReached(), slot), box'))
  }

  // ------------------------------------------------------------------
  // Rewards
  // ------------------------------------------------------------------

  /** `route_base_rewards`: not while votes are still accepted. */
  function RouteBase(state: E.State, router: Base.Router, box: B.Box, fees: Fees, rent: U64, balance: U64,
                     maxIterations: U16,
                     slot: U64, validSlots: U64): Result<(E.State, Base.Router)>
  {
    var open :- B.IsVotingValid(box, slot, validSlots);
    if open then Err(VotingIsNotOver)
    else
      var router' :- BaseTheorems.RouteBase(router, box, fees, rent, balance, maxIterations);
      Ok((E.RouteBase(state, router'.books.total), router'))
  }

  /** `route_ncn_rewards`. */
  function RouteNcn(state: E.State, router: Ncn.Router, o: S.OperatorSnapshot, k: E.RouterIndex, rent: U64,
                    balance: U64,
                    maxIterations: U16): Result<(E.State, Ncn.Router)>
  {
    var router' :- Ncn.RouteNcn(router, o, E.GroupOf(k), rent, balance, maxIterations);
    Ok((E.RouteNcn(state, k, router'.books.total), router'))
  }

  /** A system transfer out of a receiver. */
  function Withdraw(balance: U64, amount: U64): Result<U64> {
    CheckedSub(balance, amount, InsufficientFunds)
  }

  /** `distribute_base_rewards`: the bucket leaves the receiver. */
  function DistributeBase(state: E.State, router: Base.Router, balance: U64, group: Group)
    : Result<(E.State, Base.Router, U64)>
  {
    if router.StillRouting() then Err(RouterStillRouting)
    else
      var (books, rewards) :- Base.DistributeBase(router.books, group);
      var balance' :- Withdraw(balance, rewards);
      var state' :- E.DistributeBase(state, rewards);
      Ok((state', router.(books := books), balance'))
  }

  /** `distribute_base_ncn_reward_route`: the operator's route moves to its group's receiver. */
  function DistributeBaseNcn(state: E.State, router: Base.Router, balance: U64, ncnBalance: U64, group: Group,
                             operator: Key)
    : Result<(E.State, Base.Router, U64, U64)>
  {
    if router.StillRouting() then Err(RouterStillRouting)
    else
      var (books, rewards) :- Base.DistributeRoute(router.books, group, operator);
      var balance' :- Withdraw(balance, rewards);
      var ncnBalance' :- CheckedAdd64(ncnBalance, rewards);
      var state' :- E.DistributeBaseNcn(state, rewards);
      Ok((state', router.(books := books), balance', ncnBalance'))
  }

  /** `distribute_ncn_operator_rewards`. */
  function DistributeNcnOperator(state: E.State, router: Ncn.Router, balance: U64, k: E.RouterIndex)
    : Result<(E.State, Ncn.Router, U64)>
  {
    if router.StillRouting() then Err(RouterStillRouting)
    else
      var (books, rewards) :- Ncn.DistributeOperator(router.books);
      var balance' :- Withdraw(balance, rewards);
      var state' :- E.DistributeNcn(state, k, rewards);
      Ok((state', router.(books := books), balance'))
  }

  /** `distribute_ncn_vault_rewards`. */
  function DistributeNcnVault(state: E.State, router: Ncn.Router, balance: U64, k: E.RouterIndex, vault: Key)
    : Result<(E.State, Ncn.Router, U64)>
  {
    if router.StillRouting() then Err(RouterStillRouting)
    else
      var (books, rewards) :- Ncn.DistributeVault(router.books, vault);
      var balance' :- Withdraw(balance, rewards);
      var state' :- E.DistributeNcn(state, k, rewards);
      Ok((state', router.(books := books), balance'))
  }
  // ------------------------------------------------------------------
  // Closing
  // ------------------------------------------------------------------

  /** `close_epoch_account` on the epoch state: enough epochs after consensus, the closing flag, then
      the status of the closed account. The epoch state itself goes last. */
  function CloseAccount(state: E.State, kind: E.Closable, epochOf: U64 -> U64, epochsBeforeClose: U64,
                        slot: U64): Result<E.State> {
    var enough :- E.CanClose(state, epochOf, epochsBeforeClose, slot);
    if !enough then Err(CannotCloseEarly)
    else if kind.EpochStateKind? && !state.status.AllClosed() then Err(CannotCloseEpochState)
    else Ok(E.Close(state.(isClosing := true), kind))
  }

  /** A receiver is closed with its router: the rent goes back to the payer, the rest to the DAO. */
  function CloseReceiver(balance: U64, rent: U64): Result<U64> {
    Withdraw(balance, rent)
  }
}
