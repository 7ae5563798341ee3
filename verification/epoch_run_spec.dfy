/** One epoch of the program as a state machine. The state is every account of the epoch with the
    lamports of the reward receivers; an event is one instruction, a deposit or the passing of slots.
    An instruction that fails changes nothing. */
module EpochRunSpec {
  import opened Common
  import opened FeesSpec
  import opened InstructionsSpec
  import W = WeightTableSpec
  import S = EpochSnapshotSpec
  import B = BallotBoxSpec
  import Base = BaseRewardRouterSpec
  import Ncn = NcnRewardRouterSpec
  import E = EpochStateSpec

  /** An account between creation, initialization and closing. A closed account keeps the data it was
      closed with, as history only: nothing can load it. */
  datatype Account<+T> = Absent | Allocated | Live(data: T) | Closed(data: T) {
    predicate Held() {
      Live? || Closed?
    }

    function Load(): Result<T> {
      if Live? then Ok(data) else Err(AccountMissing)
    }
  }

  type OperatorKeys = s: seq<Named> | |s| == MAX_OPERATORS witness Filled(MAX_OPERATORS, 1)
  type OperatorAccounts = s: seq<Account<S.OperatorSnapshot>> | |s| == MAX_OPERATORS
    witness Filled(MAX_OPERATORS, Absent)
  type RouterAccounts = s: seq<Account<Ncn.Router>> | |s| == E.NCN_ROUTER_COUNT
    witness Filled(E.NCN_ROUTER_COUNT, Absent)
  type Balances = s: seq<U64> | |s| == E.NCN_ROUTER_COUNT witness Filled(E.NCN_ROUTER_COUNT, 0)
  type Flags = s: seq<bool> | |s| == E.NCN_ROUTER_COUNT witness Filled(E.NCN_ROUTER_COUNT, false)

  /** What stays fixed during the epoch: the operators by their index in the network, the parameters
      of the program, the rent of a receiver, and the schedule that maps slots to epochs. */
  datatype Params = Params(
    operators: OperatorKeys,
    threshold: B.Threshold,
    epoch: U64,
    validSlots: U64,
    epochsBeforeStall: U64,
    epochsBeforeClose: U64,
    rent: U64,
    epochOf: U64 -> U64)

  ghost predicate ParamsOk(c: Params) {
    && c.threshold.Valid()
    && (forall i, j :: 0 <= i < j < MAX_OPERATORS ==> c.operators[i] != c.operators[j])
    && (forall s: U64, t: U64 :: s <= t ==> c.epochOf(s) <= c.epochOf(t))
  }

  /** `deposited` and `swept` are history: lamports ever sent to a receiver, and lamports the closing
      of receivers sent to the DAO. So is `grown`: the operator's snapshot grew while this router's
      run was interrupted. */
  datatype World = World(
    slot: U64,
    state: E.State,
    stateClosed: bool,
    table: Account<W.Table>,
    snapshot: Account<S.EpochSnapshot>,
    operators: OperatorAccounts,
    box: Account<B.Box>,
    base: Account<Base.Router>,
    baseBalance: U64,
    ncn: RouterAccounts,
    ncnBalances: Balances,
    deposited: nat,
    swept: nat,
    grown: Flags)

  function Start(slot: U64): World {
    World(slot, E.NEW_STATE, false, Absent, Absent, Filled(MAX_OPERATORS, Absent), Absent, Absent, 0,
          Filled(E.NCN_ROUTER_COUNT, Absent), Filled(E.NCN_ROUTER_COUNT, 0), 0, 0, Filled(E.NCN_ROUTER_COUNT, false))
  }

  datatype Event =
    | Tick(slots: nat)
    | InitWeightTable
    | ReallocWeightTable(vaultCount: U64, vaults: W.VaultRegistry, mints: W.MintTable)
    | SetWeight(mint: Key, weight: U128)
    | InitEpochSnapshot(fees: Fees, operatorCount: U64)
    | InitOperatorSnapshot(operator: E.OperatorIndex)
    | ReallocOperatorSnapshot(operator: E.OperatorIndex, isActive: bool, feeBps: Bps)
    | SnapshotDelegation(operator: E.OperatorIndex, delegated: Delegated)
    | InitBallotBox
    | ReallocBallotBox
    | CastVote(operator: E.OperatorIndex, root: Digest)
    | SetTieBreaker(root: Digest)
    | InitBaseRouter
    | ReallocBaseRouter
    | RouteBase(maxIterations: U16)
    | DistributeBase(group: Group)
    | InitNcnRouter(router: E.RouterIndex)
    | DistributeBaseNcn(router: E.RouterIndex)
    | RouteNcn(router: E.RouterIndex, maxIterations: U16)
    | DistributeNcnOperator(router: E.RouterIndex)
    | DistributeNcnVault(router: E.RouterIndex, vault: Named)
    | DepositBase(amount: U64)
    | DepositNcn(router: E.RouterIndex, amount: U64)
    | CloseWeightTable
    | CloseEpochSnapshot
    | CloseOperatorSnapshot(operator: E.OperatorIndex)
    | CloseBallotBox
    | CloseBaseRouter
    | CloseNcnRouter(router: E.RouterIndex)
    | CloseEpochState

  /** `load_and_check_is_closing`: new accounts are refused once closing has begun. */
  function CheckNotClosing(w: World): Result<()> {
    if w.state.isClosing then Err(EpochIsClosingDown) else Ok(())
  }

  function Create<T>(w: World, account: Account<T>): Result<()> {
    var _ :- CheckNotClosing(w);
    if account.Absent? then Ok(()) else Err(AccountExists)
  }

  function CheckAllocated<T>(account: Account<T>): Result<()> {
    if account.Allocated? then Ok(()) else Err(AccountMissing)
  }

  // ------------------------------------------------------------------
  // Instructions
  // ------------------------------------------------------------------

  function DoTick(w: World, slots: nat): Result<World> {
    if w.slot + slots >= E.NO_CONSENSUS then Err(ArithmeticOverflow) else Ok(w.(slot := w.slot + slots))
  }

  function DoInitWeightTable(w: World): Result<World> {
    var _ :- Create(w, w.table);
    Ok(w.(table := Allocated))
  }

  function DoReallocWeightTable(w: World, vaultCount: U64, vaults: W.VaultRegistry, mints: W.MintTable): Result<World> {
    var _ :- CheckAllocated(w.table);
    var t :- W.Initialize(vaultCount, vaults, mints);
    if t.MintCount() > U64_MAX then Err(CastToU64)
    else Ok(w.(table := Live(t), state := E.ReallocWeightTable(w.state, vaultCount, t.MintCount())))
  }

  function DoSetWeight(w: World, mint: Key, weight: U128): Result<World> {
    var t :- w.table.Load();
    var (state, t') :- InstructionsSpec.SetWeight(w.state, t, mint, weight, w.slot);
    Ok(w.(state := state, table := Live(t')))
  }

  function DoInitEpochSnapshot(w: World, fees: Fees, operatorCount: U64): Result<World> {
    var _ :- Create(w, w.snapshot);
    var t :- w.table.Load();
    if !t.Finalized() then Err(WeightTableNotFinalized)
    else if operatorCount == 0 then Err(NoOperators)
    else Ok(w.(snapshot := Live(S.NewEpochSnapshot(fees, operatorCount, t.vaultCount)),
               state := E.InitializeEpochSnapshot(w.state, operatorCount)))
  }

  function DoInitOperator(w: World, i: E.OperatorIndex): Result<World> {
    var _ :- Create(w, w.operators[i]);
    var snapshot :- w.snapshot.Load();
    if i >= snapshot.operatorCount then Err(OperatorIsNotInSnapshot)
    else Ok(w.(operators := w.operators[i := Allocated]))
  }

  function DoReallocOperator(c: Params, w: World, i: E.OperatorIndex, isActive: bool, feeBps: Bps): Result<World> {
    var _ :- CheckAllocated(w.operators[i]);
    var snapshot :- w.snapshot.Load();
    var (state, snapshot', o) :- InstructionsSpec.ReallocOperator(w.state, snapshot, c.operators[i], i, isActive,
                                                                  feeBps, w.slot);
    Ok(w.(state := state, snapshot := Live(snapshot'), operators := w.operators[i := Live(o)]))
  }

  /** The runs that a new delegation of operator `i` catches in the middle. */
  function MarkGrown(w: World, i: E.OperatorIndex): Flags {
    seq(E.NCN_ROUTER_COUNT, k requires 0 <= k < E.NCN_ROUTER_COUNT =>
      w.grown[k] || (E.OperatorOf(k) == i && w.ncn[k].Live? && w.ncn[k].data.StillRouting()))
  }

  function DoSnapshotDelegation(w: World, i: E.OperatorIndex, d: Delegated): Result<World> {
    var t :- w.table.Load();
    var snapshot :- w.snapshot.Load();
    var o :- w.operators[i].Load();
    var (state, snapshot', o') :- InstructionsSpec.SnapshotDelegation(w.state, t, snapshot, o, d, w.slot);
    Ok(w.(state := state, snapshot := Live(snapshot'), operators := w.operators[i := Live(o')],
          grown := MarkGrown(w, i)))
  }

  function DoInitBallotBox(w: World): Result<World> {
    var _ :- Create(w, w.box);
    Ok(w.(box := Allocated))
  }

  function DoReallocBallotBox(c: Params, w: World): Result<World> {
    var _ :- CheckAllocated(w.box);
    Ok(w.(box := Live(B.NewBox(c.epoch)), state := E.ReallocBallotBox(w.state)))
  }

  function DoCastVote(c: Params, w: World, i: E.OperatorIndex, root: Digest): Result<World> {
    var box :- w.box.Load();
    var snapshot :- w.snapshot.Load();
    var o :- w.operators[i].Load();
    var (state, box') :- InstructionsSpec.CastVote(w.state, box, snapshot, o, c.threshold, root, w.slot, c.validSlots);
    Ok(w.(state := state, box := Live(box')))
  }

  function DoSetTieBreaker(c: Params, w: World, root: Digest): Result<World> {
    var box :- w.box.Load();
    var (state, box') :- InstructionsSpec.SetTieBreaker(w.state, box, root, c.epochOf(w.slot), c.epochsBeforeStall,
                                                        w.slot);
    Ok(w.(state := state, box := Live(box')))
  }

  /** The rent of the receiver is paid when the router's account is created. */
  function DoInitBaseRouter(c: Params, w: World): Result<World> {
    var _ :- Create(w, w.base);
    var balance :- CheckedAdd64(w.baseBalance, c.rent);
    Ok(w.(base := Allocated, baseBalance := balance))
  }

  function DoReallocBaseRouter(w: World): Result<World> {
    var _ :- CheckAllocated(w.base);
    Ok(w.(base := Live(Base.NEW_ROUTER), state := E.ReallocBaseRouter(w.state)))
  }

  function DoRouteBase(c: Params, w: World, maxIterations: U16): Result<World> {
    var snapshot :- w.snapshot.Load();
    var box :- w.box.Load();
    var router :- w.base.Load();
    var (state, router') :- InstructionsSpec.RouteBase(w.state, router, box, snapshot.fees, c.rent, w.baseBalance,
                                                       maxIterations, w.slot, c.validSlots);
    Ok(w.(state := state, base := Live(router')))
  }

  function DoDistributeBase(w: World, group: Group): Result<World> {
    var router :- w.base.Load();
    var (state, router', balance) :- InstructionsSpec.DistributeBase(w.state, router, w.baseBalance, group);
    Ok(w.(state := state, base := Live(router'), baseBalance := balance))
  }

  function DoInitNcnRouter(c: Params, w: World, k: E.RouterIndex): Result<World> {
    var _ :- Create(w, w.ncn[k]);
    var _ :- w.operators[E.OperatorOf(k)].Load();
    var balance :- CheckedAdd64(w.ncnBalances[k], c.rent);
    Ok(w.(ncn := w.ncn[k := Live(Ncn.NEW_ROUTER)], ncnBalances := w.ncnBalances[k := balance],
          state := E.ReallocNcnRouter(w.state, k)))
  }

  function DoDistributeBaseNcn(c: Params, w: World, k: E.RouterIndex): Result<World> {
    var router :- w.base.Load();
    var _ :- w.ncn[k].Load();
    var (state, router', balance, ncnBalance) :-
      InstructionsSpec.DistributeBaseNcn(w.state, router, w.baseBalance, w.ncnBalances[k], E.GroupOf(k),
                                         c.operators[E.OperatorOf(k)]);
    Ok(w.(state := state, base := Live(router'), baseBalance := balance, ncnBalances := w.ncnBalances[k := ncnBalance]))
  }

  function DoRouteNcn(c: Params, w: World, k: E.RouterIndex, maxIterations: U16): Result<World> {
    var o :- w.operators[E.OperatorOf(k)].Load();
    var router :- w.ncn[k].Load();
    var (state, router') :- InstructionsSpec.RouteNcn(w.state, router, o, k, c.rent, w.ncnBalances[k], maxIterations);
    Ok(w.(state := state, ncn := w.ncn[k := Live(router')],
          grown := w.grown[k := w.grown[k] && router'.StillRouting()]))
  }

  function DoDistributeNcnOperator(w: World, k: E.RouterIndex): Result<World> {
    var _ :- w.operators[E.OperatorOf(k)].Load();
    var router :- w.ncn[k].Load();
    var (state, router', balance) :- InstructionsSpec.DistributeNcnOperator(w.state, router, w.ncnBalances[k], k);
    Ok(w.(state := state, ncn := w.ncn[k := Live(router')], ncnBalances := w.ncnBalances[k := balance]))
  }

  function DoDistributeNcnVault(w: World, k: E.RouterIndex, vault: Named): Result<World> {
    var _ :- w.operators[E.OperatorOf(k)].Load();
    var router :- w.ncn[k].Load();
    var (state, router', balance) :- InstructionsSpec.DistributeNcnVault(w.state, router, w.ncnBalances[k], k, vault);
    Ok(w.(state := state, ncn := w.ncn[k := Live(router')], ncnBalances := w.ncnBalances[k := balance]))
  }

  /** Anybody may send lamports to a receiver, before or after its router exists. */
  function DoDepositBase(w: World, amount: U64): Result<World> {
    var balance :- CheckedAdd64(w.baseBalance, amount);
    Ok(w.(baseBalance := balance, deposited := w.deposited + amount))
  }

  function DoDepositNcn(w: World, k: E.RouterIndex, amount: U64): Result<World> {
    var balance :- CheckedAdd64(w.ncnBalances[k], amount);
    Ok(w.(ncnBalances := w.ncnBalances[k := balance], deposited := w.deposited + amount))
  }

  // ------------------------------------------------------------------
  // Closing
  // ------------------------------------------------------------------

  function CloseAs(c: Params, w: World, kind: E.Closable): Result<E.State> {
    CloseAccount(w.state, kind, c.epochOf, c.epochsBeforeClose, w.slot)
  }

  function DoCloseWeightTable(c: Params, w: World): Result<World> {
    var t :- w.table.Load();
    var state :- CloseAs(c, w, E.WeightTableKind);
    Ok(w.(state := state, table := Closed(t)))
  }

  function DoCloseEpochSnapshot(c: Params, w: World): Result<World> {
    var snapshot :- w.snapshot.Load();
    var state :- CloseAs(c, w, E.EpochSnapshotKind);
    Ok(w.(state := state, snapshot := Closed(snapshot)))
  }

  function DoCloseOperator(c: Params, w: World, i: E.OperatorIndex): Result<World> {
    var o :- w.operators[i].Load();
    if o.ncnOperatorIndex >= MAX_OPERATORS then Err(IndexOutOfBounds)
    else
      var state :- CloseAs(c, w, E.OperatorSnapshotKind(o.ncnOperatorIndex));
      Ok(w.(state := state, operators := w.operators[i := Closed(o)]))
  }

  function DoCloseBallotBox(c: Params, w: World): Result<World> {
    var box :- w.box.Load();
    var state :- CloseAs(c, w, E.BallotBoxKind);
    Ok(w.(state := state, box := Closed(box)))
  }

  function DoCloseBaseRouter(c: Params, w: World): Result<World> {
    var router :- w.base.Load();
    var state :- CloseAs(c, w, E.BaseRouterKind);
    var above :- CloseReceiver(w.baseBalance, c.rent);
    Ok(w.(state := state, base := Closed(router), baseBalance := 0, swept := w.swept + above))
  }

  function DoCloseNcnRouter(c: Params, w: World, k: E.RouterIndex): Result<World> {
    var router :- w.ncn[k].Load();
    var state :- CloseAs(c, w, E.NcnRouterKind(k));
    var above :- CloseReceiver(w.ncnBalances[k], c.rent);
    Ok(w.(state := state, ncn := w.ncn[k := Closed(router)], ncnBalances := w.ncnBalances[k := 0],
          swept := w.swept + above))
  }

  function DoCloseEpochState(c: Params, w: World): Result<World> {
    var state :- CloseAs(c, w, E.EpochStateKind);
    Ok(w.(state := state, stateClosed := true))
  }

  /** Every instruction needs the epoch state; deposits and time do not. */
  function Instruction(c: Params, w: World, e: Event): Result<World> {
    match e
    case Tick(slots) => DoTick(w, slots)
    case DepositBase(amount) => DoDepositBase(w, amount)
    case DepositNcn(k, amount) => DoDepositNcn(w, k, amount)
    case _ => if w.stateClosed then Err(AccountMissing) else OnLiveState(c, w, e)
  }

  function OnLiveState(c: Params, w: World, e: Event): Result<World> {
    match e
    case Tick(slots) => DoTick(w, slots)
    case InitWeightTable => DoInitWeightTable(w)
    case ReallocWeightTable(vaultCount, vaults, mints) => DoReallocWeightTable(w, vaultCount, vaults, mints)
    case SetWeight(mint, weight) => DoSetWeight(w, mint, weight)
    case InitEpochSnapshot(fees, operatorCount) => DoInitEpochSnapshot(w, fees, operatorCount)
    case InitOperatorSnapshot(i) => DoInitOperator(w, i)
    case ReallocOperatorSnapshot(i, isActive, feeBps) => DoReallocOperator(c, w, i, isActive, feeBps)
    case SnapshotDelegation(i, delegated) => DoSnapshotDelegation(w, i, delegated)
    case InitBallotBox => DoInitBallotBox(w)
    case ReallocBallotBox => DoReallocBallotBox(c, w)
    case CastVote(i, root) => DoCastVote(c, w, i, root)
    case SetTieBreaker(root) => DoSetTieBreaker(c, w, root)
    case InitBaseRouter => DoInitBaseRouter(c, w)
    case ReallocBaseRouter => DoReallocBaseRouter(w)
    case RouteBase(maxIterations) => DoRouteBase(c, w, maxIterations)
    case DistributeBase(group) => DoDistributeBase(w, group)
    case InitNcnRouter(k) => DoInitNcnRouter(c, w, k)
    case DistributeBaseNcn(k) => DoDistributeBaseNcn(c, w, k)
    case RouteNcn(k, maxIterations) => DoRouteNcn(c, w, k, maxIterations)
    case DistributeNcnOperator(k) => DoDistributeNcnOperator(w, k)
    case DistributeNcnVault(k, vault) => DoDistributeNcnVault(w, k, vault)
    case DepositBase(amount) => DoDepositBase(w, amount)
    case DepositNcn(k, amount) => DoDepositNcn(w, k, amount)
    case CloseWeightTable => DoCloseWeightTable(c, w)
    case CloseEpochSnapshot => DoCloseEpochSnapshot(c, w)
    case CloseOperatorSnapshot(i) => DoCloseOperator(c, w, i)
    case CloseBallotBox => DoCloseBallotBox(c, w)
    case CloseBaseRouter => DoCloseBaseRouter(c, w)
    case CloseNcnRouter(k) => DoCloseNcnRouter(c, w, k)
    case CloseEpochState => DoCloseEpochState(c, w)
  }

  /** A failed instruction is rolled back. */
  function Step(c: Params, w: World, e: Event): World {
    var r := Instruction(c, w, e);
    if r.Ok? then r.value else w
  }

  function Run(c: Params, w: World, events: seq<Event>): World
    decreases |events|
  {
    if events == [] then w else Step(c, Run(c, w, events[..|events| - 1]), events[|events| - 1])
  }
}
