/** When the instructions of an epoch go through: for weights, snapshots, votes, the tie-break and closing,
    exactly which requests are accepted in the states an epoch can be in. */
module EpochRunAcceptance {
  import opened Common
  import opened Sums
  import opened StakeWeight
  import opened InstructionsSpec
  import opened InstructionsProofs
  import opened EpochRunSpec
  import opened EpochRunInvariants
  import opened EpochRunSnapshots
  import opened EpochRunOperators
  import opened EpochRunClosing
  import W = WeightTableSpec
  import WeightTableProofs
  import S = EpochSnapshotSpec
  import SnapshotProofs = EpochSnapshotProofs
  import E = EpochStateSpec

  // ------------------------------------------------------------------
  // Weights and snapshots
  // ------------------------------------------------------------------

  /** A weight is accepted exactly while the table is not final, for a key that is in it. */
  lemma {:induction false} WeightIsAccepted(c: Params, w: World, mint: Key, weight: U128)
    requires ParamsOk(c) && Inv(c, w) && w.table.Live?
    ensures DoSetWeight(w, mint, weight).Ok? <==>
      && !w.table.data.Finalized()
      && exists i :: 0 <= i < MAX_ST_MINTS && w.table.data.entries[i].entry.mint == mint
  {
    var t := w.table.data;
    WeightTableProofs.SetWeightExactly(t, mint, weight, w.slot);
    if W.SetWeight(t, mint, weight, w.slot).Ok? && !t.Finalized() {
      WeightTableProofs.ApplyCounts(t, WeightTableProofs.Setting(mint, weight, w.slot));
    }
  }

  lemma {:induction false} VaultsWithinRegistry(t: W.Table)
    requires t.RegistryInitialized()
    ensures t.vaultCount <= MAX_VAULTS
  {
    SumOfFlags(W.VaultFlags(t.vaults));
  }

  lemma {:induction false} VaultsWithinOperators(counts: seq<nat>)
    requires forall i :: 0 <= i < |counts| ==> counts[i] <= MAX_VAULTS
    ensures Sum(counts) <= |counts| * MAX_VAULTS
  {
    if counts != [] {
      VaultsWithinOperators(counts[..|counts| - 1]);
    }
  }

  /** What finalized operators contributed, and what a further one could add, is counted. */
  lemma {:induction false} CountsFit(c: Params, w: World, i: E.OperatorIndex)
    requires ParamsOk(c) && Inv(c, w) && w.snapshot.Held() && !w.operators[i].Absent? && !IsFinal(w.operators[i])
    ensures w.snapshot.data.operatorsRegistered < w.snapshot.data.operatorCount
    ensures w.snapshot.data.validDelegations <= MAX_OPERATORS * MAX_VAULTS
    ensures w.state.snapshot.tally == w.snapshot.data.operatorsRegistered
  {
    OpenOperatorMeansNoVotes(c, w, i);
    FinalMeansAllFinal(c, w);
    forall j: E.OperatorIndex ensures FinalValid(w.operators)[j] <= MAX_VAULTS {
      assert OperatorAccountOk(c, j, w.operators[j], w.state.operators[j], OperatorCount(w.snapshot),
                               VaultCount(w.snapshot));
      if IsFinal(w.operators[j]) {
        SnapshotProofs.HasStakeBound(w.operators[j].data.delegations);
      }
    }
    VaultsWithinOperators(FinalValid(w.operators));
  }

  lemma {:induction false} NothingAddsUp(a: StakeWeights)
    ensures AddFits(a, ZERO_WEIGHTS)
  {
  }

  /** An operator's snapshot can always be made once its account has its size. */
  lemma {:induction false} OperatorIsAccepted(c: Params, w: World, i: E.OperatorIndex, isActive: bool, feeBps: Bps)
    requires ParamsOk(c) && Inv(c, w)
    ensures DoReallocOperator(c, w, i, isActive, feeBps).Ok? <==> w.operators[i].Allocated? && w.snapshot.Live?
  {
    if w.operators[i].Allocated? && w.snapshot.Live? {
      VaultsWithinRegistry(w.table.data);
      SnapshotProofs.InitOperatorExactly(c.operators[i], i, isActive, feeBps, w.snapshot.data.vaultCount, w.slot);
      CountsFit(c, w, i);
      NothingAddsUp(w.snapshot.data.weights);
    }
  }

  /** The weights of an operator with one more stake. */
  ghost predicate StakeFits(a: StakeWeights, s: Weighed) {
    && a.total + s.amount <= U128_MAX
    && forall g :: 0 <= g < FEE_GROUP_COUNT ==> a.groups[g] + s.Weight(g) <= U128_MAX
  }

  /** The weights of the epoch, with those of an operator and one more stake of its. */
  ghost predicate LastStakeFits(epoch: StakeWeights, a: StakeWeights, s: Weighed) {
    && epoch.total + a.total + s.amount <= U128_MAX
    && forall g :: 0 <= g < FEE_GROUP_COUNT ==> epoch.groups[g] + a.groups[g] + s.Weight(g) <= U128_MAX
  }

  /** What a delegation needs of the operator and the epoch. */
  ghost predicate Expects(o: S.OperatorSnapshot, epoch: StakeWeights, s: Weighed) {
    && o.registered < o.delegationCount <= MAX_VAULTS
    && (forall j :: 0 <= j < o.registered ==> o.delegations[j].vaultIndex != s.vaultIndex)
    && StakeFits(o.weights, s)
    && (o.registered + 1 == o.delegationCount ==> LastStakeFits(epoch, o.weights, s))
  }

  /** Registering it with the operator. */
  lemma {:induction false} StakeRegisters(o: S.OperatorSnapshot, slot: U64, d: S.Delegation, s: Weighed)
    requires SnapshotProofs.OperatorOk(o) && Records(d, s) && d.vaultIndex != U64_MAX
    ensures S.RegisterDelegation(o, slot, d).Ok? <==>
      && o.registered < o.delegationCount
      && (forall j :: 0 <= j < o.registered ==> o.delegations[j].vaultIndex != s.vaultIndex)
      && StakeFits(o.weights, s)
    ensures S.RegisterDelegation(o, slot, d).Ok? ==>
      var o' := S.RegisterDelegation(o, slot, d).value;
      && (o'.Finalized() <==> o.registered + 1 == o.delegationCount)
      && o'.validDelegations <= MAX_VAULTS + 1 && o'.ncnOperatorIndex == o.ncnOperatorIndex
      && forall epoch: StakeWeights :: AddFits(epoch, o'.weights) <==> LastStakeFits(epoch, o.weights, s)
  {
    SnapshotProofs.RegisterDelegationExactly(o, slot, d);
    SnapshotProofs.HasStakeBound(o.delegations);
    if S.RegisterDelegation(o, slot, d).Ok? {
      SnapshotProofs.RegisteredState(o, slot, d);
      var o' := S.RegisterDelegation(o, slot, d).value;
      forall epoch: StakeWeights ensures AddFits(epoch, o'.weights) <==> LastStakeFits(epoch, o.weights, s) {
        assert forall g :: 0 <= g < FEE_GROUP_COUNT ==> o'.weights.groups[g] == o.weights.groups[g] + s.Weight(g);
      }
    }
  }

  /** Telling the epoch snapshot and the epoch state. */
  lemma {:induction false} DelegationGoesThrough(w: World, i: E.OperatorIndex, d: Delegated, delegation: S.Delegation,
                                                 s: Weighed)
    requires w.table.Live? && w.snapshot.Live? && w.operators[i].Live?
    requires SnapshotProofs.OperatorOk(w.operators[i].data) && w.operators[i].data.ncnOperatorIndex == i
    requires DelegationOf(w.table.data, d) == Ok(delegation) && Records(delegation, s) && s.vaultIndex != U64_MAX
    requires w.snapshot.data.operatorsRegistered < w.snapshot.data.operatorCount
    requires w.snapshot.data.validDelegations <= MAX_OPERATORS * MAX_VAULTS
    requires w.state.snapshot.tally < U64_MAX && w.state.operators[i].tally < U64_MAX
    ensures DoSnapshotDelegation(w, i, d).Ok? <==> Expects(w.operators[i].data, w.snapshot.data.weights, s)
  {
    StakeRegisters(w.operators[i].data, w.slot, delegation, s);
  }

  /** A delegation in the mint of entry `r` that can be snapshotted. */
  ghost predicate Snapshottable(t: W.Table, o: S.OperatorSnapshot, epoch: StakeWeights, d: Delegated, r: nat) {
    && FirstEntry(t, d.mint, r)
    && d.vaultIndex != U64_MAX && d.vaultIndex in t.vaults
    && var s := Weigh(d, t.entries[r].entry, t.entries[r].weight);
    s.Fits() && Expects(o, epoch, s)
  }

  lemma {:induction false} OneFirstEntry(t: W.Table, mint: Key)
    ensures forall r: nat :: FirstEntry(t, mint, r) ==> r == W.FindMint(t.entries, mint, 0)
  {
  }

  /** A delegation is snapshotted exactly when its mint is in the table, its vault registered, and the
      operator's snapshot still open for that vault; and the stake, the operator's sum and, with the last
      one expected, the epoch's sum fit 128 bits. */
  lemma {:induction false} DelegationIsAccepted(c: Params, w: World, i: E.OperatorIndex, d: Delegated)
    requires ParamsOk(c) && Inv(c, w) && w.table.Live? && w.snapshot.Live? && w.operators[i].Live?
    ensures DoSnapshotDelegation(w, i, d).Ok? <==>
      exists r: nat :: Snapshottable(w.table.data, w.operators[i].data, w.snapshot.data.weights, d, r)
  {
    var t, o := w.table.data, w.operators[i].data;
    assert OperatorAccountOk(c, i, w.operators[i], w.state.operators[i], OperatorCount(w.snapshot),
                             VaultCount(w.snapshot));
    var r := W.FindMint(t.entries, d.mint, 0);
    OneFirstEntry(t, d.mint);
    if r == MAX_ST_MINTS {
      UnlistedMint(t, d);
    } else {
      var s := Weigh(d, t.entries[r].entry, t.entries[r].weight);
      DelegationExactly(t, d, r);
      if DelegationOf(t, d).Ok? && o.registered < o.delegationCount {
        CountsFit(c, w, i);
        DelegationGoesThrough(w, i, d, DelegationOf(t, d).value, s);
      }
      assert DoSnapshotDelegation(w, i, d).Ok?
        <==> Snapshottable(t, o, w.snapshot.data.weights, d, r);
    }
  }

  // ------------------------------------------------------------------
  // Closing
  // ------------------------------------------------------------------

  /** Consensus was reached, and the required epochs have passed since. */
  ghost predicate LongEnough(c: Params, w: World) {
    && w.state.slotConsensus != U64_MAX
    && c.epochOf(w.slot) - c.epochOf(w.state.slotConsensus) >= c.epochsBeforeClose
  }

  lemma {:induction false} CloseIsLongEnough(c: Params, w: World)
    requires ParamsOk(c) && Inv(c, w)
    ensures E.CanClose(w.state, c.epochOf, c.epochsBeforeClose, w.slot) == Ok(true) <==> LongEnough(c, w)
  {
    assert w.state.slotConsensus != U64_MAX ==> c.epochOf(w.state.slotConsensus) <= c.epochOf(w.slot);
  }

  /** The account that a close takes away. */
  predicate AtHand(w: World, e: Event) {
    match e
    case CloseWeightTable => w.table.Live?
    case CloseEpochSnapshot => w.snapshot.Live?
    case CloseOperatorSnapshot(i) => w.operators[i].Live?
    case CloseBallotBox => w.box.Live?
    case CloseBaseRouter => w.base.Live?
    case CloseNcnRouter(k) => w.ncn[k].Live?
    case _ => true
  }

  /** Nothing of the epoch is open any more: what every epoch has was closed, what it may have was
      closed or never made. */
  ghost predicate NothingOpen(w: World) {
    && w.table.Closed? && w.snapshot.Closed? && w.box.Closed? && w.base.Closed?
    && (forall i: E.OperatorIndex :: !w.operators[i].Live?)
    && (forall k: E.RouterIndex :: !w.ncn[k].Live?)
  }

  lemma {:induction false} NothingOpenInState(c: Params, w: World)
    requires Inv(c, w)
    ensures w.state.status.AllClosed() <==> NothingOpen(w)
  {
    assert forall i: E.OperatorIndex :: Mirrors(w.operators[i], w.state.status.operators[i], E.Created);
    assert forall k: E.RouterIndex :: Mirrors(w.ncn[k], w.state.status.ncnRouters[k], E.CreatedWithReceiver);
  }

  lemma {:induction false} SharedCloses(c: Params, w: World, e: Event)
    requires e.CloseWeightTable? || e.CloseEpochSnapshot? || e.CloseBallotBox? || e.CloseEpochState?
    ensures Instruction(c, w, e).Ok? <==>
      && !w.stateClosed && AtHand(w, e)
      && E.CanClose(w.state, c.epochOf, c.epochsBeforeClose, w.slot) == Ok(true)
      && (e.CloseEpochState? ==> w.state.status.AllClosed())
  {
  }

  lemma {:induction false} OthersClose(c: Params, w: World, e: Event)
    requires e.CloseOperatorSnapshot? || e.CloseBaseRouter? || e.CloseNcnRouter?
    requires e.CloseOperatorSnapshot? && w.operators[e.operator].Live? ==>
      w.operators[e.operator].data.ncnOperatorIndex < MAX_OPERATORS
    requires e.CloseBaseRouter? && w.base.Live? ==> w.baseBalance >= c.rent
    requires e.CloseNcnRouter? && w.ncn[e.router].Live? ==> w.ncnBalances[e.router] >= c.rent
    ensures Instruction(c, w, e).Ok? <==>
      && !w.stateClosed && AtHand(w, e)
      && E.CanClose(w.state, c.epochOf, c.epochsBeforeClose, w.slot) == Ok(true)
  {
  }

  /** Closing goes through exactly for an account at hand, while there is an epoch state, and once the
      required epochs have passed since consensus; for the epoch state itself, only when it is the last. */
  lemma {:induction false} ClosingIsAccepted(c: Params, w: World, e: Event)
    requires ParamsOk(c) && Inv(c, w) && Closes(e)
    ensures Instruction(c, w, e).Ok? <==>
      && !w.stateClosed && AtHand(w, e) && LongEnough(c, w)
      && (e.CloseEpochState? ==> NothingOpen(w))
  {
    CloseIsLongEnough(c, w);
    if e.CloseOperatorSnapshot? || e.CloseBaseRouter? || e.CloseNcnRouter? {
      ClosedIsBacked(c, w, e);
      OthersClose(c, w, e);
    } else {
      NothingOpenInState(c, w);
      SharedCloses(c, w, e);
    }
  }

  /** A router's receiver covers its rent, and an operator's snapshot knows its index. */
  lemma {:induction false} ClosedIsBacked(c: Params, w: World, e: Event)
    requires Inv(c, w)
    ensures e.CloseOperatorSnapshot? && w.operators[e.operator].Live? ==>
      w.operators[e.operator].data.ncnOperatorIndex < MAX_OPERATORS
    ensures e.CloseBaseRouter? && w.base.Live? ==> w.baseBalance >= c.rent
    ensures e.CloseNcnRouter? && w.ncn[e.router].Live? ==> w.ncnBalances[e.router] >= c.rent
  {
    if e.CloseOperatorSnapshot? {
      var i := e.operator;
      assert OperatorAccountOk(c, i, w.operators[i], w.state.operators[i], OperatorCount(w.snapshot),
                               VaultCount(w.snapshot));
    } else if e.CloseNcnRouter? {
      var k := e.router;
      assert NcnRouterOk(c, k, w.ncn[k], w.operators[E.OperatorOf(k)], w.ncnBalances[k], w.state.ncn[k], w.grown[k]);
    }
  }
}
