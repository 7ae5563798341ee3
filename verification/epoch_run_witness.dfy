/** Runs that show the statements about runs speak of something: parameters an epoch can have, an epoch
    that begins to close and never ends, and a router that is stuck for good. */
module EpochRunWitness {
  import opened Common
  import opened Sums
  import opened StakeWeight
  import opened FeesSpec
  import opened InstructionsSpec
  import opened EpochRunSpec
  import opened EpochRunInvariants
  import opened EpochRunVotes
  import opened EpochRunClosing
  import opened EpochRunProgress
  import opened EpochRunTheorems
  import opened EpochRunEnd
  import W = WeightTableSpec
  import S = EpochSnapshotSpec
  import B = BallotBoxSpec
  import BallotBoxProofs
  import Consensus
  import Ncn = NcnRewardRouterSpec
  import NcnProofs = NcnRewardRouterProofs
  import E = EpochStateSpec

  // ------------------------------------------------------------------
  // Parameters
  // ------------------------------------------------------------------

  const SLOTS_PER_EPOCH: nat := 432_000

  function EpochOfSlot(slot: U64): U64 {
    slot / SLOTS_PER_EPOCH
  }

  function OperatorsByIndex(): (keys: OperatorKeys)
    ensures forall i :: 0 <= i < MAX_OPERATORS ==> keys[i] == i + 1
  {
    seq(MAX_OPERATORS, i requires 0 <= i < MAX_OPERATORS => (i + 1) as Named)
  }

  /** Parameters within the limits the program sets them. */
  function SomeParams(): Params {
    Params(OperatorsByIndex(), B.TWO_THIRDS, 0, 1000, 10, 10, 890_880, EpochOfSlot)
  }

  lemma {:induction false} SomeParamsOk()
    ensures ParamsOk(SomeParams())
  {
    var c := SomeParams();
    forall s: U64, t: U64 | s <= t ensures c.epochOf(s) <= c.epochOf(t) {
      assert c.epochOf(s) == EpochOfSlot(s) && c.epochOf(t) == EpochOfSlot(t);
    }
  }

  // ------------------------------------------------------------------
  // One step after the other
  // ------------------------------------------------------------------

  lemma {:induction false} Happens(c: Params, w: World, e: Event, w': World)
    requires Reachable(c, w) && Instruction(c, w, e) == Ok(w')
    ensures Reachable(c, w')
  {
    ReachableNext(c, w, e);
  }

  lemma {:induction false} StartIsReachable(c: Params, slot: U64)
    requires 0 < slot < E.NO_CONSENSUS
    ensures Reachable(c, Start(slot))
  {
    assert Run(c, Start(slot), []) == Start(slot);
  }

  // ------------------------------------------------------------------
  // A final weight table
  // ------------------------------------------------------------------

  function OneMint(): (r: W.MintTable)
    ensures r[0] == W.MintEntry(1, 0, 1) && forall i :: 1 <= i < MAX_ST_MINTS ==> r[i] == W.EMPTY_MINT
  {
    Filled(MAX_ST_MINTS, W.EMPTY_MINT)[0 := W.MintEntry(1, 0, 1)]
  }

  function TwoVaults(): (r: W.VaultRegistry)
    ensures r[0] == 0 && r[1] == 1 && forall i :: 2 <= i < MAX_VAULTS ==> r[i] == W.EMPTY_VAULT_INDEX
  {
    Filled(MAX_VAULTS, W.EMPTY_VAULT_INDEX)[0 := 0][1 := 1]
  }

  lemma {:induction false} OneFlag(flags: seq<nat>, i: nat)
    requires i < |flags| && flags[i] == 1 && forall j :: 0 <= j < |flags| && j != i ==> flags[j] == 0
    ensures Sum(flags) == 1
  {
    SumUpdate(flags, i, 0);
    SumZero(flags[i := 0]);
  }

  lemma {:induction false} TwoFlags(flags: seq<nat>)
    requires |flags| >= 2 && flags[0] == flags[1] == 1 && forall j :: 2 <= j < |flags| ==> flags[j] == 0
    ensures Sum(flags) == 2
  {
    SumUpdate(flags, 0, 0);
    OneFlag(flags[0 := 0], 1);
  }

  /** One mint, two vaults, and the mint's weight. */
  ghost predicate Weighted(t: W.Table) {
    && t.Finalized() && t.vaultCount == 2 && t.Registers(0) && t.Registers(1)
    && W.GetEntry(t, 1).Ok? && W.GetEntry(t, 1).value.entry == W.MintEntry(1, 0, 1)
    && W.GetEntry(t, 1).value.weight == 1
  }

  lemma {:induction false} TableInitialized() returns (t: W.Table)
    ensures W.Initialize(2, TwoVaults(), OneMint()) == Ok(t)
    ensures !t.Finalized() && t.MintCount() == 1 && t.entries[0] == W.NewEntry(W.MintEntry(1, 0, 1))
  {
    t := W.Table(2, TwoVaults(), W.NewEntries(OneMint()));
    TwoFlags(W.VaultFlags(t.vaults));
    OneFlag(W.MintFlags(t.entries), 0);
    SumZero(W.WeightFlags(t.entries));
  }

  lemma {:induction false} TableWeighted() returns (t: W.Table)
    ensures W.Initialize(2, TwoVaults(), OneMint()).Ok? && !W.Initialize(2, TwoVaults(), OneMint()).value.Finalized()
    ensures W.SetWeight(W.Initialize(2, TwoVaults(), OneMint()).value, 1, 1, 1) == Ok(t)
    ensures Weighted(t) && t.WeightCount() == t.MintCount() == 1
  {
    var new_ := TableInitialized();
    assert W.FindMint(new_.entries, 1, 0) == 0;
    t := W.SetWeight(new_, 1, 1, 1).value;
    TwoFlags(W.VaultFlags(t.vaults));
    OneFlag(W.MintFlags(t.entries), 0);
    OneFlag(W.WeightFlags(t.entries), 0);
    assert t.vaults[0] == 0 && t.vaults[1] == 1;
  }

  /** Nothing but the weight table so far. */
  ghost predicate OnlyTable(w: World) {
    && w.slot == 1 && !w.stateClosed && !w.state.isClosing
    && w.table.Live? && Weighted(w.table.data)
    && w.snapshot.Absent? && w.box.Absent? && w.base.Absent?
    && w.operators == Filled(MAX_OPERATORS, Absent)
    && w.ncn == Filled(E.NCN_ROUTER_COUNT, Absent)
    && w.ncnBalances == Filled(E.NCN_ROUTER_COUNT, 0)
  }

  lemma {:induction false} TableIsMade(c: Params) returns (w: World)
    ensures Reachable(c, w) && OnlyTable(w)
  {
    var t := TableWeighted();
    var w0 := Start(1);
    StartIsReachable(c, 1);
    var w1 := DoInitWeightTable(w0).value;
    Happens(c, w0, InitWeightTable, w1);
    var new_ := W.Initialize(2, TwoVaults(), OneMint()).value;
    var other := TableInitialized();
    var w2 := DoReallocWeightTable(w1, 2, TwoVaults(), OneMint()).value;
    Happens(c, w1, ReallocWeightTable(2, TwoVaults(), OneMint()), w2);
    w := DoSetWeight(w2, 1, 1).value;
    Happens(c, w2, EpochRunSpec.SetWeight(1, 1), w);
  }

  // ------------------------------------------------------------------
  // One operator with two delegations to come
  // ------------------------------------------------------------------

  const NO_FEES := Fees(0, Filled(FEE_GROUP_COUNT, 0), Filled(FEE_GROUP_COUNT, 0))

  /** The snapshot of operator 0 is open, with what it has registered so far. */
  ghost predicate OneOperator(c: Params, w: World, o: S.OperatorSnapshot) {
    && w.slot == 1 && !w.stateClosed && !w.state.isClosing
    && w.table.Live? && Weighted(w.table.data)
    && w.snapshot == Live(S.NewEpochSnapshot(NO_FEES, 1, 2))
    && w.box.Absent? && w.base.Absent?
    && w.operators[0] == Live(o) && o.operator == c.operators[0] && o.ncnOperatorIndex == 0
  }

  ghost predicate NoRouters(w: World) {
    && w.ncn == Filled(E.NCN_ROUTER_COUNT, Absent)
    && w.ncnBalances == Filled(E.NCN_ROUTER_COUNT, 0)
  }

  lemma {:induction false} OperatorIsMade(c: Params) returns (w: World)
    ensures Reachable(c, w) && NoRouters(w)
    ensures OneOperator(c, w, NcnProofs.TwoExpected(c.operators[0], 1))
  {
    var w0 := TableIsMade(c);
    var w1 := DoInitEpochSnapshot(w0, NO_FEES, 1).value;
    Happens(c, w0, InitEpochSnapshot(NO_FEES, 1), w1);
    var w2 := DoInitOperator(w1, 0).value;
    Happens(c, w1, InitOperatorSnapshot(0), w2);
    w := DoReallocOperator(c, w2, 0, true, 0).value;
    Happens(c, w2, ReallocOperatorSnapshot(0, true, 0), w);
  }

  /** Vaults 11 and 12, each with one unit of stake in fee group 0. */
  const FIRST := Delegated(11, 0, 1, true, 1)
  const SECOND := Delegated(12, 1, 1, true, 1)

  lemma {:induction false} DelegationsAreEqual(t: W.Table)
    requires Weighted(t)
    ensures DelegationOf(t, FIRST) == Ok(NcnProofs.FIRST_VAULT)
    ensures DelegationOf(t, SECOND) == Ok(NcnProofs.SECOND_VAULT)
  {
    assert Snapshot(0, 1, 1) == Ok(NcnProofs.ONE_STAKE);
  }

  /** The counters of the epoch state have room for one more. */
  lemma {:induction false} CountersHaveRoom(c: Params, w: World, o: S.OperatorSnapshot)
    requires ParamsOk(c) && Reachable(c, w) && OneOperator(c, w, o)
    ensures w.state.operators[0].tally <= MAX_VAULTS && w.state.snapshot.tally == 0
  {
    ReachableInv(c, w);
    assert OperatorAccountOk(c, 0, w.operators[0], w.state.operators[0], OperatorCount(w.snapshot),
                             VaultCount(w.snapshot));
  }

  /** A delegation that does not finish the operator. */
  lemma {:induction false} FirstIsRegistered(c: Params, w: World) returns (w': World, first: S.OperatorSnapshot)
    requires ParamsOk(c) && Reachable(c, w) && OneOperator(c, w, NcnProofs.TwoExpected(c.operators[0], 1))
    requires NoRouters(w)
    ensures S.RegisterDelegation(NcnProofs.TwoExpected(c.operators[0], 1), 1, NcnProofs.FIRST_VAULT) == Ok(first)
    ensures Reachable(c, w') && OneOperator(c, w', first) && NoRouters(w')
  {
    CountersHaveRoom(c, w, NcnProofs.TwoExpected(c.operators[0], 1));
    DelegationsAreEqual(w.table.data);
    first := NcnProofs.FirstRegistered(c.operators[0], 1);
    w' := DoSnapshotDelegation(w, 0, FIRST).value;
    Happens(c, w, EpochRunSpec.SnapshotDelegation(0, FIRST), w');
  }

  /** The delegation that does: the operator and the epoch snapshot become final. */
  lemma {:induction false} SecondIsRegistered(c: Params, w: World, first: S.OperatorSnapshot,
                                              second: S.OperatorSnapshot)
    returns (w': World)
    requires ParamsOk(c) && Reachable(c, w) && OneOperator(c, w, first)
    requires S.RegisterDelegation(first, 1, NcnProofs.SECOND_VAULT) == Ok(second)
    requires second.Finalized() && second.weights.total == 2 && second.ncnOperatorIndex == 0
    ensures Reachable(c, w') && w'.operators[0] == Live(second)
    ensures w'.snapshot.Live? && w'.snapshot.data.Finalized() && w'.snapshot.data.weights.total == 2
    ensures w'.slot == 1 && !w'.stateClosed && !w'.state.isClosing && w'.box.Absent? && w'.base.Absent?
    ensures w'.table.Live?
    ensures w'.ncn == w.ncn && w'.ncnBalances == w.ncnBalances && w'.grown == MarkGrown(w, 0)
  {
    CountersHaveRoom(c, w, first);
    DelegationsAreEqual(w.table.data);
    LastOperatorFits(second);
    w' := DoSnapshotDelegation(w, 0, SECOND).value;
    Happens(c, w, EpochRunSpec.SnapshotDelegation(0, SECOND), w');
  }

  lemma {:induction false} LastOperatorFits(o: S.OperatorSnapshot)
    requires o.weights.total == 2
    ensures var r := S.RegisterOperator(S.NewEpochSnapshot(NO_FEES, 1, 2), 1, o.validDelegations, o.weights);
      r.Ok? && r.value.Finalized() && r.value.weights.total == 2
  {
    assert AddFits(ZERO_WEIGHTS, o.weights);
  }

  // ------------------------------------------------------------------
  // A router that is stuck for good
  // ------------------------------------------------------------------

  lemma {:induction false} RouterIsFunded(c: Params, w: World, first: S.OperatorSnapshot) returns (w': World)
    requires Reachable(c, w) && OneOperator(c, w, first) && NoRouters(w) && c.rent + 10 <= U64_MAX
    ensures Reachable(c, w') && OneOperator(c, w', first)
    ensures w'.ncn[0] == Live(Ncn.NEW_ROUTER) && w'.ncnBalances[0] == c.rent + 10
  {
    E.IndexIsInvertible(0, 0, 0);
    var w1 := DoInitNcnRouter(c, w, 0).value;
    Happens(c, w, InitNcnRouter(0), w1);
    w' := DoDepositNcn(w1, 0, 10).value;
    Happens(c, w1, DepositNcn(0, 10), w');
  }

  /** The operator's router of group 0 took 10 lamports and was interrupted after one vault. */
  lemma {:induction false} RunIsPaused(c: Params, w: World, first: S.OperatorSnapshot)
    returns (w': World, paused: Ncn.Router)
    requires Reachable(c, w) && OneOperator(c, w, first) && NoRouters(w) && c.rent + 10 <= U64_MAX
    requires first.feeBps == 0 && first.weights.groups[0] == 1 && first.delegations[0] == NcnProofs.FIRST_VAULT
    ensures Reachable(c, w') && OneOperator(c, w', first)
    ensures w'.ncn[0] == Live(paused) && paused.cursor == Ncn.Cursor(10, 1) && paused.books.pool == 0
  {
    var w1 := RouterIsFunded(c, w, first);
    E.IndexIsInvertible(0, 0, 0);
    paused := NcnProofs.PausedAfterFirst(first, c.rent);
    w' := DoRouteNcn(c, w1, 0, 1).value;
    Happens(c, w1, EpochRunSpec.RouteNcn(0, 1), w');
  }

  /** An interrupted run that no call can take up again. */
  ghost predicate Stuck(r: Ncn.Router, o: S.OperatorSnapshot, group: Group) {
    && r.StillRouting() && o.Finalized()
    && forall rent: U64, balance: U64, maxIterations: U16 ::
         Ncn.RouteNcn(r, o, group, rent, balance, maxIterations).Err?
  }

  ghost predicate StuckAt(w: World, k: E.RouterIndex, r: Ncn.Router, o: S.OperatorSnapshot) {
    && Stuck(r, o, E.GroupOf(k))
    && w.ncn[k].Held() && w.ncn[k].data == r
    && w.operators[E.OperatorOf(k)].Held() && w.operators[E.OperatorOf(k)].data == o
  }

  lemma {:induction false} BuildingSparesRouter(c: Params, w: World, e: Event, k: E.RouterIndex)
    requires (BuildsSnapshots(e) || VotesOrOpens(e)) && w.ncn[k].Held() && Instruction(c, w, e).Ok?
    ensures Instruction(c, w, e).value.ncn[k] == w.ncn[k]
  {
  }

  lemma {:induction false} ClosingSparesRouter(c: Params, w: World, e: Event, k: E.RouterIndex)
    requires Closes(e) && w.ncn[k].Held() && Instruction(c, w, e).Ok?
    ensures Instruction(c, w, e).value.ncn[k].Held() && Instruction(c, w, e).value.ncn[k].data == w.ncn[k].data
  {
  }

  lemma {:induction false} RewardsSpareStuckRouter(c: Params, w: World, e: Event, k: E.RouterIndex, r: Ncn.Router,
                                                   o: S.OperatorSnapshot)
    requires MovesRewards(e) && StuckAt(w, k, r, o) && Instruction(c, w, e).Ok?
    ensures Instruction(c, w, e).value.ncn[k] == w.ncn[k]
  {
  }

  lemma {:induction false} StepStaysStuck(c: Params, w: World, e: Event, k: E.RouterIndex, r: Ncn.Router,
                                          o: S.OperatorSnapshot)
    requires ParamsOk(c) && Inv(c, w) && StuckAt(w, k, r, o)
    ensures StuckAt(Step(c, w, e), k, r, o)
  {
    StepLater(c, w, e);
    assert OperatorsLater(w.operators, Step(c, w, e).operators, w.state.isClosing);
    assert IsFinal(w.operators[E.OperatorOf(k)]);
    if Instruction(c, w, e).Ok? {
      if BuildsSnapshots(e) || VotesOrOpens(e) {
        BuildingSparesRouter(c, w, e, k);
      } else if MovesRewards(e) {
        RewardsSpareStuckRouter(c, w, e, k, r, o);
      } else {
        ClosingSparesRouter(c, w, e, k);
      }
    }
  }

  lemma {:induction false} RunStaysStuck(c: Params, w: World, events: seq<Event>, k: E.RouterIndex, r: Ncn.Router,
                                         o: S.OperatorSnapshot)
    requires ParamsOk(c) && Inv(c, w) && StuckAt(w, k, r, o)
    ensures StuckAt(Run(c, w, events), k, r, o)
    decreases |events|
  {
    if events != [] {
      var before := events[..|events| - 1];
      RunStaysStuck(c, w, before, k, r, o);
      RunKeeps(c, w, before);
      StepStaysStuck(c, Run(c, w, before), events[|events| - 1], k, r, o);
    }
  }

  lemma {:induction false} GrownRunIsStuck(c: Params) returns (w: World, r: Ncn.Router, o: S.OperatorSnapshot)
    requires ParamsOk(c) && c.rent + 10 <= U64_MAX
    ensures Reachable(c, w) && w.ncn[0].Live? && w.grown[0] && !w.stateClosed && w.operators[0].Live?
    ensures StuckAt(w, 0, r, o)
  {
    E.IndexIsInvertible(0, 0, 0);
    var w0 := OperatorIsMade(c);
    var w1, first := FirstIsRegistered(c, w0);
    var same := NcnProofs.FirstRegistered(c.operators[0], 1);
    var w2, paused := RunIsPaused(c, w1, first);
    var again, second := NcnProofs.SecondRegistered(c.operators[0], 1);
    w := SecondIsRegistered(c, w2, first, second);
    r, o := paused, second;
    forall rent: U64, balance: U64, maxIterations: U16
      ensures Ncn.RouteNcn(r, o, 0, rent, balance, maxIterations).Err?
    {
      NcnProofs.NothingLeftForSecond(paused, second, rent, balance, maxIterations);
    }
  }

  /** What the mark on routers excludes is real, whatever the parameters: some run of an epoch leaves a
      live router marked, and from then on, whatever happens, no call for it ever succeeds. */
  lemma {:induction false} GrownRouterStuckForGood(c: Params) returns (w: World)
    requires ParamsOk(c) && c.rent + 10 <= U64_MAX
    ensures Reachable(c, w) && !w.stateClosed && w.operators[0].Live? && w.ncn[0].Live? && w.grown[0]
    ensures forall events: seq<Event>, maxIterations: U16 :: DoRouteNcn(c, Run(c, w, events), 0, maxIterations).Err?
  {
    var r, o;
    w, r, o := GrownRunIsStuck(c);
    ReachableInv(c, w);
    forall events: seq<Event>, maxIterations: U16 ensures DoRouteNcn(c, Run(c, w, events), 0, maxIterations).Err? {
      RunStaysStuck(c, w, events, 0, r, o);
      StuckRouterFails(c, Run(c, w, events), r, o, maxIterations);
    }
  }

  lemma {:induction false} StuckRouterFails(c: Params, w: World, r: Ncn.Router, o: S.OperatorSnapshot,
                                            maxIterations: U16)
    requires StuckAt(w, 0, r, o)
    ensures DoRouteNcn(c, w, 0, maxIterations).Err?
  {
    E.IndexIsInvertible(0, 0, 0);
    assert Ncn.RouteNcn(r, o, E.GroupOf(0), c.rent, w.ncnBalances[0], maxIterations).Err?;
  }

  // ------------------------------------------------------------------
  // An epoch without end
  // ------------------------------------------------------------------

  /** The vote of the only operator decides. */
  lemma {:induction false} OneVoteDecides(c: Params, w: World, o: S.OperatorSnapshot) returns (w': World)
    requires ParamsOk(c) && Reachable(c, w) && w.slot == 1 && !w.stateClosed && !w.state.isClosing && w.base.Absent?
    requires w.table.Live?
    requires w.box.Live? && w.box.data == B.NewBox(c.epoch) && w.operators[0] == Live(o) && o.weights.total == 2
    requires w.snapshot.Live? && w.snapshot.data.Finalized() && w.snapshot.data.weights.total == 2
    ensures Reachable(c, w') && w'.state.slotConsensus == 1 && w'.slot == 1
    ensures w'.base.Absent? && w'.table.Live? && !w'.stateClosed && !w'.state.isClosing
  {
    ReachableInv(c, w);
    FirstVoteIsHeard(c, w, 0, 1);
    w' := DoCastVote(c, w, 0, 1).value;
    Happens(c, w, EpochRunSpec.CastVote(0, 1), w');
    var box' := VoteInRun(c, w, 0, 1);
    ReachableInv(c, w');
    var t := VoteWeighsIn(c, w, box', o);
  }

  /** The tally it lands in holds all its weight. */
  lemma {:induction false} VoteWeighsIn(c: Params, w: World, box': B.Box, o: S.OperatorSnapshot) returns (t: U16)
    requires ParamsOk(c) && w.box.Live? && BallotBoxProofs.Valid(w.box.data) && o.weights.total == 2
    requires Consensus.Vote(w.box.data, c.threshold, 2, c.operators[0], B.NewBallot(1), o.weights, 1, c.validSlots)
         == Ok(box')
    requires BallotBoxProofs.Valid(box') && Consensus.WinnerOk(box', c.threshold, 2)
    ensures t < |box'.tallies| && box'.tallies[t].weights.total >= 2
    ensures box'.IsConsensusReached()
  {
    t := BallotBoxProofs.CastVoteKeeps(w.box.data, c.operators[0], B.NewBallot(1), o.weights, 1, c.validSlots);
    var v := BallotBoxProofs.CastSlot(w.box.data, c.operators[0]);
    assert box'.votes[v].weights == o.weights && box'.votes[v].ballotIndex == t;
    BallotBoxProofs.BackingAtLeast(box'.votes, v, Stake);
    assert box'.tallies[t].Amount(Stake)
        == BallotBoxProofs.Backing(box'.votes, t, Stake) + BallotBoxProofs.Contribution(B.EMPTY_VOTE, t, Stake);
    Consensus.MetIsMonotone(c.threshold, 2, box'.tallies[t].weights.total, 2);
    assert c.threshold.Met(2, 2);
  }

  lemma {:induction false} BoxIsMade(c: Params, w: World) returns (w': World)
    requires Reachable(c, w) && !w.stateClosed && !w.state.isClosing && w.box.Absent?
    ensures Reachable(c, w') && w'.box == Live(B.NewBox(c.epoch))
    ensures w'.slot == w.slot && !w'.stateClosed && !w'.state.isClosing && w'.base == w.base && w'.table == w.table
    ensures w'.operators == w.operators && w'.snapshot == w.snapshot
  {
    var w1 := DoInitBallotBox(w).value;
    Happens(c, w, InitBallotBox, w1);
    w' := DoReallocBallotBox(c, w1).value;
    Happens(c, w1, ReallocBallotBox, w');
  }

  /** Enough epochs later the weight table is closed, with no base router in sight. */
  lemma {:induction false} ClosingBegins(c: Params, w: World, later: U64) returns (w': World)
    requires Reachable(c, w) && w.slot == 1 && w.state.slotConsensus == 1
    requires w.base.Absent? && w.table.Live? && !w.stateClosed
    requires 1 < later < E.NO_CONSENSUS && c.epochOf(later) - c.epochOf(1) >= c.epochsBeforeClose
    ensures Reachable(c, w') && w'.state.isClosing && w'.base.Absent?
  {
    var w1 := DoTick(w, later - 1).value;
    Happens(c, w, Tick(later - 1), w1);
    w' := DoCloseWeightTable(c, w1).value;
    Happens(c, w1, CloseWeightTable, w');
  }

  /** The trap is real: wherever an epoch that reaches consensus in its first slot may be closed at
      all, one begins to close without a base router and can never be closed to its end. */
  lemma {:induction false} EpochWithoutEnd(c: Params, later: U64) returns (w: World)
    requires ParamsOk(c) && 1 < later < E.NO_CONSENSUS && c.epochOf(later) - c.epochOf(1) >= c.epochsBeforeClose
    ensures Reachable(c, w) && w.state.isClosing && w.base.Absent? && !CanBeClosed(c, w)
  {
    var w0 := OperatorIsMade(c);
    var w1, first := FirstIsRegistered(c, w0);
    var again, second := NcnProofs.SecondRegistered(c.operators[0], 1);
    var w2 := SecondIsRegistered(c, w1, first, second);
    var w3 := BoxIsMade(c, w2);
    var w4 := OneVoteDecides(c, w3, second);
    w := ClosingBegins(c, w4, later);
    ClosingEndsExactly(c, w);
  }

  /** At the program's own parameters, too. */
  lemma {:induction false} SomeEpochWithoutEnd() returns (w: World)
    ensures ParamsOk(SomeParams()) && Reachable(SomeParams(), w)
    ensures w.state.isClosing && w.base.Absent? && !CanBeClosed(SomeParams(), w)
  {
    SomeParamsOk();
    var c := SomeParams();
    assert c.epochOf(11 * SLOTS_PER_EPOCH) == EpochOfSlot(11 * SLOTS_PER_EPOCH) == 11;
    assert c.epochOf(1) == EpochOfSlot(1) == 0;
    w := EpochWithoutEnd(c, 11 * SLOTS_PER_EPOCH);
  }
}
