/** The epoch state account: which accounts of the epoch exist, and counters that shadow their
    contents (core/src/epoch_state.rs). */
module EpochStateSpec {
  import opened Common
  import opened FeesSpec

  datatype Status = DNE | Created | CreatedWithReceiver | Closed

  const NCN_ROUTER_COUNT: nat := MAX_OPERATORS * FEE_GROUP_COUNT

  type OperatorStatuses = s: seq<Status> | |s| == MAX_OPERATORS witness Filled(MAX_OPERATORS, DNE)
  type RouterStatuses = s: seq<Status> | |s| == NCN_ROUTER_COUNT witness Filled(NCN_ROUTER_COUNT, DNE)

  datatype Statuses = Statuses(
    epochState: Status,
    weightTable: Status,
    epochSnapshot: Status,
    operators: OperatorStatuses,
    ballotBox: Status,
    baseRouter: Status,
    ncnRouters: RouterStatuses)
  {
    /** `are_all_closed`: the accounts every epoch has are closed, the optional ones are not open. */
    predicate AllClosed() {
      && weightTable == epochSnapshot == ballotBox == baseRouter == Closed
      && (forall i :: 0 <= i < |operators| ==> operators[i] == DNE || operators[i] == Closed)
      && (forall k :: 0 <= k < |ncnRouters| ==> ncnRouters[k] == DNE || ncnRouters[k] == Closed)
    }
  }

  const INVALID: U64 := U64_MAX

  datatype Progress = Progress(tally: U64, total: U64) {
    predicate IsInvalid() {
      tally == INVALID || total == INVALID
    }

    predicate IsComplete() {
      !IsInvalid() && tally >= total
    }

    function Increment(amount: U64): Result<Progress> {
      var sum :- CheckedAdd64(tally, amount);
      Ok(this.(tally := sum))
    }
  }

  const ZERO := Progress(0, 0)

  type OperatorProgress = s: seq<Progress> | |s| == MAX_OPERATORS witness Filled(MAX_OPERATORS, ZERO)
  type RouterProgress = s: seq<Progress> | |s| == NCN_ROUTER_COUNT witness Filled(NCN_ROUTER_COUNT, ZERO)

  const NO_CONSENSUS: U64 := U64_MAX

  datatype State = State(
    wasTieBreakerSet: bool,
    slotConsensus: U64,
    operatorCount: U64,
    vaultCount: U64,
    status: Statuses,
    setWeight: Progress,
    snapshot: Progress,
    operators: OperatorProgress,
    voting: Progress,
    validation: Progress,
    upload: Progress,
    total: Progress,
    base: Progress,
    ncn: RouterProgress,
    isClosing: bool)
  {
    predicate IsConsensusReached() {
      slotConsensus != NO_CONSENSUS
    }
  }

  /** The account after its last reallocation: `initialize` writes no progress, so a new state's
      counters are the zeroes of the fresh account, not the invalid marker. */
  const NEW_STATE := State(false, NO_CONSENSUS, 0, 0,
                           Statuses(Created, DNE, DNE, Filled(MAX_OPERATORS, DNE), DNE, DNE,
                                    Filled(NCN_ROUTER_COUNT, DNE)),
                           ZERO, ZERO, Filled(MAX_OPERATORS, ZERO), ZERO, ZERO, ZERO, ZERO, ZERO,
                           Filled(NCN_ROUTER_COUNT, ZERO), false)

  type OperatorIndex = i: nat | i < MAX_OPERATORS
  type RouterIndex = k: nat | k < NCN_ROUTER_COUNT

  /** `get_ncn_reward_router_index`. */
  function IndexOf(i: OperatorIndex, g: Group): RouterIndex {
    i * FEE_GROUP_COUNT + g
  }

  function OperatorOf(k: RouterIndex): (i: OperatorIndex)
  {
    k / FEE_GROUP_COUNT
  }

  function GroupOf(k: RouterIndex): (g: Group)
  {
    k % FEE_GROUP_COUNT
  }

  lemma {:induction false} IndexIsInvertible(i: OperatorIndex, g: Group, k: RouterIndex)
    ensures IndexOf(i, g) == k <==> i == OperatorOf(k) && g == GroupOf(k)
    ensures IndexOf(i, g) == 8 * i + g
  {
  }

  // ------------------------------------------------------------------
  // Updaters
  // ------------------------------------------------------------------

  function ReallocWeightTable(s: State, vaultCount: U64, mintCount: U64): State {
    s.(status := s.status.(weightTable := Created), vaultCount := vaultCount, setWeight := Progress(0, mintCount))
  }

  function SetWeight(s: State, weightsSet: U64, mintCount: U64): State {
    s.(setWeight := Progress(weightsSet, mintCount))
  }

  function InitializeEpochSnapshot(s: State, operatorCount: U64): State {
    s.(status := s.status.(epochSnapshot := Created), operatorCount := operatorCount,
       snapshot := Progress(0, operatorCount))
  }

  function ReallocOperatorSnapshot(s: State, i: OperatorIndex, isActive: bool): Result<State> {
    var s1 := s.(status := s.status.(operators := s.status.operators[i := Created]));
    if isActive then Ok(s1.(operators := s1.operators[i := Progress(0, s1.vaultCount)]))
    else
      var snapshot :- s1.snapshot.Increment(1);
      Ok(s1.(operators := s1.operators[i := Progress(1, 1)], snapshot := snapshot))
  }

  function SnapshotDelegation(s: State, i: OperatorIndex, finalized: bool): Result<State> {
    var operator :- s.operators[i].Increment(1);
    var snapshot :- if finalized then s.snapshot.Increment(1) else Ok(s.snapshot);
    Ok(s.(operators := s.operators[i := operator], snapshot := snapshot))
  }

  function ReallocBallotBox(s: State): State {
    s.(status := s.status.(ballotBox := Created), voting := Progress(0, s.operatorCount),
       validation := Progress(0, 1), upload := Progress(0, 1))
  }

  function CastVote(s: State, operatorsVoted: U64, reached: bool, slot: U64): State {
    s.(slotConsensus := if reached && !s.IsConsensusReached() then slot else s.slotConsensus,
       voting := s.voting.(tally := operatorsVoted))
  }

  function SetTieBreaker(s: State, reached: bool, slot: U64): State {
    if reached && !s.IsConsensusReached() then s.(slotConsensus := slot, wasTieBreakerSet := true) else s
  }

  function ReallocBaseRouter(s: State): State {
    s.(status := s.status.(baseRouter := CreatedWithReceiver), base := ZERO)
  }

  function ReallocNcnRouter(s: State, k: RouterIndex): State {
    s.(status := s.status.(ncnRouters := s.status.ncnRouters[k := CreatedWithReceiver]), ncn := s.ncn[k := ZERO])
  }

  function RouteBase(s: State, totalRewards: U64): State {
    s.(total := s.total.(total := totalRewards), base := s.base.(total := totalRewards))
  }

  function RouteNcn(s: State, k: RouterIndex, totalRewards: U64): State {
    s.(ncn := s.ncn[k := s.ncn[k].(total := totalRewards)])
  }

  function DistributeBase(s: State, rewards: U64): Result<State> {
    var total :- s.total.Increment(rewards);
    var base :- s.base.Increment(rewards);
    Ok(s.(total := total, base := base))
  }

  function DistributeBaseNcn(s: State, rewards: U64): Result<State> {
    var base :- s.base.Increment(rewards);
    Ok(s.(base := base))
  }

  function DistributeNcn(s: State, k: RouterIndex, rewards: U64): Result<State> {
    var total :- s.total.Increment(rewards);
    var ncn :- s.ncn[k].Increment(rewards);
    Ok(s.(total := total, ncn := s.ncn[k := ncn]))
  }

  /** The accounts that can be closed. */
  datatype Closable =
    | EpochStateKind
    | WeightTableKind
    | EpochSnapshotKind
    | OperatorSnapshotKind(operator: OperatorIndex)
    | BallotBoxKind
    | BaseRouterKind
    | NcnRouterKind(router: RouterIndex)

  /** The closers. */
  function Close(s: State, kind: Closable): State {
    match kind
    case EpochStateKind => s.(status := s.status.(epochState := Closed))
    case WeightTableKind => s.(status := s.status.(weightTable := Closed))
    case EpochSnapshotKind => s.(status := s.status.(epochSnapshot := Closed))
    case OperatorSnapshotKind(i) => s.(status := s.status.(operators := s.status.operators[i := Closed]))
    case BallotBoxKind => s.(status := s.status.(ballotBox := Closed))
    case BaseRouterKind => s.(status := s.status.(baseRouter := Closed))
    case NcnRouterKind(k) => s.(status := s.status.(ncnRouters := s.status.ncnRouters[k := Closed]))
  }

  // ------------------------------------------------------------------
  // Phases
  // ------------------------------------------------------------------

  function CanStartRouting(s: State, validSlots: U64, slot: U64): Result<bool> {
    if !s.IsConsensusReached() then Ok(false)
    else
      var start :- CheckedAdd64(s.slotConsensus, validSlots);
      Ok(slot >= start)
  }

  /** Epochs since consensus, by a schedule that maps slots to epochs. */
  function CanClose(s: State, epochOf: U64 -> U64, epochsBeforeClose: U64, slot: U64): Result<bool> {
    if !s.IsConsensusReached() then Err(ConsensusNotReached)
    else
      var now, then_ := epochOf(slot), epochOf(s.slotConsensus);
      Ok((if now >= then_ then now - then_ else 0) >= epochsBeforeClose)
  }

  datatype Phase = SetWeightPhase | SnapshotPhase | VotePhase | DistributePhase | ClosePhase {
    function Rank(): nat {
      match this
      case SetWeightPhase => 0
      case SnapshotPhase => 1
      case VotePhase => 2
      case DistributePhase => 3
      case ClosePhase => 4
    }
  }

  /** `current_state`. */
  function CurrentState(s: State, epochOf: U64 -> U64, validSlots: U64, epochsBeforeClose: U64,
                        slot: U64): Result<Phase> {
    if s.status.weightTable == DNE || !s.setWeight.IsComplete() then Ok(SetWeightPhase)
    else if s.status.epochSnapshot == DNE || !s.snapshot.IsComplete() then Ok(SnapshotPhase)
    else if s.status.ballotBox == DNE then Ok(VotePhase)
    else
      var routing :- CanStartRouting(s, validSlots, slot);
      if !routing then Ok(VotePhase)
      else
        var close :- CanClose(s, epochOf, epochsBeforeClose, slot);
        Ok(if close then ClosePhase else DistributePhase)
  }
}

/** `EpochState` as the program holds it. */
module EpochStateAccount {
  import opened Common
  import opened EpochStateSpec
  import Spec = EpochStateSpec

  class EpochState {
    var wasTieBreakerSet: bool
    var slotConsensus: U64
    var operatorCount: U64
    var vaultCount: U64
    var epochStateStatus: Status
    var weightTableStatus: Status
    var epochSnapshotStatus: Status
    var ballotBoxStatus: Status
    var baseRouterStatus: Status
    const operatorStatus: array<Status>
    const ncnRouterStatus: array<Status>
    var setWeightProgress: Progress
    var snapshotProgress: Progress
    const operatorProgress: array<Progress>
    var votingProgress: Progress
    var validationProgress: Progress
    var uploadProgress: Progress
    var totalProgress: Progress
    var baseProgress: Progress
    const ncnProgress: array<Progress>
    var isClosing: bool

    ghost predicate Shaped() {
      && operatorStatus.Length == operatorProgress.Length == MAX_OPERATORS
      && ncnRouterStatus.Length == ncnProgress.Length == NCN_ROUTER_COUNT
      && operatorStatus != ncnRouterStatus && operatorProgress != ncnProgress
    }

    ghost function State(): Spec.State
      requires Shaped()
      reads this, operatorStatus, ncnRouterStatus, operatorProgress, ncnProgress
    {
      Spec.State(wasTieBreakerSet, slotConsensus, operatorCount, vaultCount,
                 Statuses(epochStateStatus, weightTableStatus, epochSnapshotStatus, operatorStatus[..],
                          ballotBoxStatus, baseRouterStatus, ncnRouterStatus[..]),
                 setWeightProgress, snapshotProgress, operatorProgress[..], votingProgress, validationProgress,
                 uploadProgress, totalProgress, baseProgress, ncnProgress[..], isClosing)
    }

    constructor ()
      ensures Shaped() && fresh(operatorStatus) && fresh(ncnRouterStatus) && fresh(operatorProgress)
      ensures fresh(ncnProgress)
      ensures State() == NEW_STATE
    {
      wasTieBreakerSet, slotConsensus, operatorCount, vaultCount, isClosing := false, NO_CONSENSUS, 0, 0, false;
      epochStateStatus, weightTableStatus, epochSnapshotStatus := Created, DNE, DNE;
      ballotBoxStatus, baseRouterStatus := DNE, DNE;
      setWeightProgress, snapshotProgress, votingProgress, validationProgress := ZERO, ZERO, ZERO, ZERO;
      uploadProgress, totalProgress, baseProgress := ZERO, ZERO, ZERO;
      operatorStatus := new Status[MAX_OPERATORS](_ => DNE);
      ncnRouterStatus := new Status[NCN_ROUTER_COUNT](_ => DNE);
      operatorProgress := new Progress[MAX_OPERATORS](_ => ZERO);
      ncnProgress := new Progress[NCN_ROUTER_COUNT](_ => ZERO);
      new;
      assert operatorStatus[..] == NEW_STATE.status.operators && ncnRouterStatus[..] == NEW_STATE.status.ncnRouters;
      assert operatorProgress[..] == NEW_STATE.operators && ncnProgress[..] == NEW_STATE.ncn;
    }

    method UpdateSetWeight(weightsSet: U64, mintCount: U64)
      requires Shaped()
      modifies this`setWeightProgress
      ensures State() == SetWeight(old(State()), weightsSet, mintCount)
    {
      setWeightProgress := setWeightProgress.(tally := weightsSet);
      setWeightProgress := setWeightProgress.(total := mintCount);
    }

    method UpdateReallocOperatorSnapshot(i: OperatorIndex, isActive: bool) returns (r: Result<()>)
      requires Shaped()
      modifies this`snapshotProgress, operatorStatus, operatorProgress
      ensures match ReallocOperatorSnapshot(old(State()), i, isActive)
        case Ok(s) => r.Ok? && State() == s
        case Err(e) => r == Err(e)
    {
      operatorStatus[i] := Created;
      assert operatorStatus[..] == old(operatorStatus[..])[i := Created];
      if isActive {
        operatorProgress[i] := Progress(0, vaultCount);
      } else {
        operatorProgress[i] := Progress(0, 1);
        operatorProgress[i] := operatorProgress[i].(tally := 1);
        snapshotProgress :- snapshotProgress.Increment(1);
      }
      assert operatorProgress[..] == old(operatorProgress[..])[i := operatorProgress[i]];
      return Ok(());
    }

    method UpdateSnapshotVaultOperatorDelegation(i: OperatorIndex, finalized: bool) returns (r: Result<()>)
      requires Shaped()
      modifies this`snapshotProgress, operatorProgress
      ensures match SnapshotDelegation(old(State()), i, finalized)
        case Ok(s) => r.Ok? && State() == s
        case Err(e) => r == Err(e)
    {
      operatorProgress[i] :- operatorProgress[i].Increment(1);
      assert operatorProgress[..] == old(operatorProgress[..])[i := operatorProgress[i]];
      if finalized {
        snapshotProgress :- snapshotProgress.Increment(1);
      }
      return Ok(());
    }

    method UpdateCastVote(operatorsVoted: U64, reached: bool, slot: U64)
      requires Shaped()
      modifies this`slotConsensus, this`votingProgress
      ensures State() == CastVote(old(State()), operatorsVoted, reached, slot)
    {
      if reached && slotConsensus == NO_CONSENSUS {
        slotConsensus := slot;
      }
      votingProgress := votingProgress.(tally := operatorsVoted);
    }

    method UpdateSetTieBreaker(reached: bool, slot: U64)
      requires Shaped()
      modifies this`slotConsensus, this`wasTieBreakerSet
      ensures State() == SetTieBreaker(old(State()), reached, slot)
    {
      if reached && slotConsensus == NO_CONSENSUS {
        slotConsensus := slot;
        wasTieBreakerSet := true;
      }
    }

    method UpdateRouteBaseRewards(totalRewards: U64)
      requires Shaped()
      modifies this`totalProgress, this`baseProgress
      ensures State() == RouteBase(old(State()), totalRewards)
    {
      totalProgress := totalProgress.(total := totalRewards);
      baseProgress := baseProgress.(total := totalRewards);
    }

    method UpdateRouteNcnRewards(k: RouterIndex, totalRewards: U64)
      requires Shaped()
      modifies ncnProgress
      ensures State() == RouteNcn(old(State()), k, totalRewards)
    {
      ncnProgress[k] := ncnProgress[k].(total := totalRewards);
      assert ncnProgress[..] == old(ncnProgress[..])[k := ncnProgress[k]];
    }

    method UpdateDistributeBaseRewards(rewards: U64) returns (r: Result<()>)
      requires Shaped()
      modifies this`totalProgress, this`baseProgress
      ensures match DistributeBase(old(State()), rewards)
        case Ok(s) => r.Ok? && State() == s
        case Err(e) => r == Err(e)
    {
      totalProgress :- totalProgress.Increment(rewards);
      baseProgress :- baseProgress.Increment(rewards);
      return Ok(());
    }

    method UpdateDistributeBaseNcnRewards(rewards: U64) returns (r: Result<()>)
      requires Shaped()
      modifies this`baseProgress
      ensures match DistributeBaseNcn(old(State()), rewards)
        case Ok(s) => r.Ok? && State() == s
        case Err(e) => r == Err(e)
    {
      baseProgress :- baseProgress.Increment(rewards);
      return Ok(());
    }

    method UpdateDistributeNcnRewards(k: RouterIndex, rewards: U64) returns (r: Result<()>)
      requires Shaped()
      modifies this`totalProgress, ncnProgress
      ensures match DistributeNcn(old(State()), k, rewards)
        case Ok(s) => r.Ok? && State() == s
        case Err(e) => r == Err(e)
    {
      totalProgress :- totalProgress.Increment(rewards);
      ncnProgress[k] :- ncnProgress[k].Increment(rewards);
      assert ncnProgress[..] == old(ncnProgress[..])[k := ncnProgress[k]];
      return Ok(());
    }

    /** `can_close_epoch_accounts`. */
    method CanCloseEpochAccounts(epochOf: U64 -> U64, epochsBeforeClose: U64, slot: U64) returns (r: Result<bool>)
      requires Shaped()
      ensures r == CanClose(State(), epochOf, epochsBeforeClose, slot)
    {
      if slotConsensus == NO_CONSENSUS {
        return Err(ConsensusNotReached);
      }
      var now, then_ := epochOf(slot), epochOf(slotConsensus);
      return Ok((if now >= then_ then now - then_ else 0) >= epochsBeforeClose);
    }

    method SetIsClosing()
      requires Shaped()
      modifies this`isClosing
      ensures State() == old(State()).(isClosing := true)
    {
      isClosing := true;
    }

    /** The closers, one per kind of account. */
    method MarkClosed(kind: Closable)
      requires Shaped()
      modifies this`epochStateStatus, this`weightTableStatus, this`epochSnapshotStatus
      modifies this`ballotBoxStatus, this`baseRouterStatus, operatorStatus, ncnRouterStatus
      ensures State() == Close(old(State()), kind)
    {
      match kind
      case EpochStateKind => epochStateStatus := Closed;
      case WeightTableKind => weightTableStatus := Closed;
      case EpochSnapshotKind => epochSnapshotStatus := Closed;
      case OperatorSnapshotKind(i) =>
        operatorStatus[i] := Closed;
        assert operatorStatus[..] == old(operatorStatus[..])[i := Closed];
      case BallotBoxKind => ballotBoxStatus := Closed;
      case BaseRouterKind => baseRouterStatus := Closed;
      case NcnRouterKind(k) =>
        ncnRouterStatus[k] := Closed;
        assert ncnRouterStatus[..] == old(ncnRouterStatus[..])[k := Closed];
    }

    /** The loops of `are_all_closed`. */
    method AreAllClosed() returns (all: bool)
      requires Shaped()
      ensures all == State().status.AllClosed()
    {
      if weightTableStatus != Closed || epochSnapshotStatus != Closed {
        return false;
      }
      for i := 0 to operatorStatus.Length
        invariant forall j :: 0 <= j < i ==> operatorStatus[j] == DNE || operatorStatus[j] == Closed
      {
        if operatorStatus[i] != DNE && operatorStatus[i] != Closed {
          assert operatorStatus[..][i] == operatorStatus[i];
          return false;
        }
      }
      if ballotBoxStatus != Closed || baseRouterStatus != Closed {
        return false;
      }
      for k := 0 to ncnRouterStatus.Length
        invariant forall j :: 0 <= j < k ==> ncnRouterStatus[j] == DNE || ncnRouterStatus[j] == Closed
      {
        if ncnRouterStatus[k] != DNE && ncnRouterStatus[k] != Closed {
          assert ncnRouterStatus[..][k] == ncnRouterStatus[k];
          return false;
        }
      }
      return true;
    }
  }
}
