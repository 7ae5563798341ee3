/** The invariants through time, weights, snapshots and the creation of accounts. */
module EpochRunSnapshots {
  import opened Common
  import opened Sums
  import opened FeesSpec
  import opened EpochRunSpec
  import opened EpochRunInvariants
  import W = WeightTableSpec
  import WeightTableProofs
  import S = EpochSnapshotSpec
  import BallotBoxProofs
  import E = EpochStateSpec

  // ------------------------------------------------------------------
  // What a final epoch snapshot means
  // ------------------------------------------------------------------

  lemma {:induction false} FlagsWithinCount(c: Params, operators: OperatorAccounts, progress: E.OperatorProgress,
                                            operatorCount: nat, vaultCount: nat)
    requires OperatorsOk(c, operators, progress, operatorCount, vaultCount)
    ensures Sum(FinalFlags(operators)) <= operatorCount
    ensures Sum(FinalFlags(operators)) == operatorCount ==>
      operatorCount <= MAX_OPERATORS && forall i: E.OperatorIndex :: i < operatorCount ==> IsFinal(operators[i])
  {
    var flags := FinalFlags(operators);
    var n := if operatorCount <= MAX_OPERATORS then operatorCount else MAX_OPERATORS;
    assert flags == flags[..n] + flags[n..];
    SumConcat(flags[..n], flags[n..]);
    forall i | 0 <= i < |flags[n..]| ensures flags[n..][i] == 0 {
      assert OperatorAccountOk(c, n + i, operators[n + i], progress[n + i], operatorCount, vaultCount);
    }
    SumZero(flags[n..]);
    SumOfFlags(flags[..n]);
    forall i: E.OperatorIndex | i < operatorCount && Sum(flags) == operatorCount ensures IsFinal(operators[i]) {
      assert flags[..n][i] == 1;
    }
  }

  /** Registrations never exceed the count, and when they reach it every operator of the epoch has a
      final snapshot. */
  lemma {:induction false} FinalMeansAllFinal(c: Params, w: World)
    requires Inv(c, w) && w.snapshot.Held()
    ensures w.snapshot.data.operatorsRegistered <= w.snapshot.data.operatorCount
    ensures w.snapshot.data.Finalized() ==>
      && w.snapshot.data.operatorCount <= MAX_OPERATORS
      && (forall i: E.OperatorIndex :: i < w.snapshot.data.operatorCount ==> IsFinal(w.operators[i]))
      && (forall i: E.OperatorIndex :: !w.operators[i].Absent? ==> IsFinal(w.operators[i]))
  {
    FlagsWithinCount(c, w.operators, w.state.operators, OperatorCount(w.snapshot), VaultCount(w.snapshot));
    forall i: E.OperatorIndex | !w.operators[i].Absent? ensures i < w.snapshot.data.operatorCount {
      assert OperatorAccountOk(c, i, w.operators[i], w.state.operators[i], OperatorCount(w.snapshot),
                               VaultCount(w.snapshot));
    }
  }

  // ------------------------------------------------------------------
  // Time
  // ------------------------------------------------------------------

  lemma {:induction false} TickKeeps(c: Params, w: World, slots: nat)
    requires ParamsOk(c) && Inv(c, w) && DoTick(w, slots).Ok?
    ensures Inv(c, DoTick(w, slots).value)
  {
    var w' := DoTick(w, slots).value;
    if w.state.isClosing {
      assert c.epochOf(w.slot) <= c.epochOf(w'.slot);
    }
  }

  // ------------------------------------------------------------------
  // Weights
  // ------------------------------------------------------------------

  lemma {:induction false} InitWeightTableKeeps(c: Params, w: World)
    requires ParamsOk(c) && Inv(c, w) && DoInitWeightTable(w).Ok?
    ensures Inv(c, DoInitWeightTable(w).value)
  {
  }

  lemma {:induction false} ReallocWeightTableKeeps(c: Params, w: World, vaultCount: U64, vaults: W.VaultRegistry,
                                                   mints: W.MintTable)
    requires ParamsOk(c) && Inv(c, w) && DoReallocWeightTable(w, vaultCount, vaults, mints).Ok?
    ensures Inv(c, DoReallocWeightTable(w, vaultCount, vaults, mints).value)
  {
    WeightTableProofs.InitializeOk(vaultCount, vaults, mints);
    WeightTableProofs.TableOkCounts(W.Initialize(vaultCount, vaults, mints).value);
  }

  lemma {:induction false} SetWeightKeeps(c: Params, w: World, mint: Key, weight: U128)
    requires ParamsOk(c) && Inv(c, w) && DoSetWeight(w, mint, weight).Ok?
    ensures Inv(c, DoSetWeight(w, mint, weight).value)
  {
    WeightTableProofs.SetWeightKeeps(w.table.data, mint, weight, w.slot);
  }

  // ------------------------------------------------------------------
  // Accounts that start out empty
  // ------------------------------------------------------------------

  lemma {:induction false} InitEpochSnapshotKeeps(c: Params, w: World, fees: Fees, operatorCount: U64)
    requires ParamsOk(c) && Inv(c, w) && DoInitEpochSnapshot(w, fees, operatorCount).Ok?
    ensures Inv(c, DoInitEpochSnapshot(w, fees, operatorCount).value)
  {
    forall i: E.OperatorIndex ensures w.operators[i].Absent? {
      assert OperatorAccountOk(c, i, w.operators[i], w.state.operators[i], 0, 0);
    }
    NoSums(w.operators, fees, operatorCount, w.table.data.vaultCount);
  }

  lemma {:induction false} NoSums(operators: OperatorAccounts, fees: Fees, operatorCount: U64, vaultCount: U64)
    requires forall i: E.OperatorIndex :: operators[i].Absent?
    ensures SumsOf(S.NewEpochSnapshot(fees, operatorCount, vaultCount), operators)
  {
    SumZero(FinalFlags(operators));
    SumZero(FinalValid(operators));
    forall m ensures Sum(FinalWeights(operators, m)) == 0 {
      SumZero(FinalWeights(operators, m));
    }
  }

  lemma {:induction false} InitBallotBoxKeeps(c: Params, w: World)
    requires ParamsOk(c) && Inv(c, w) && DoInitBallotBox(w).Ok?
    ensures Inv(c, DoInitBallotBox(w).value)
  {
  }

  lemma {:induction false} ReallocBallotBoxKeeps(c: Params, w: World)
    requires ParamsOk(c) && Inv(c, w) && DoReallocBallotBox(c, w).Ok?
    ensures Inv(c, DoReallocBallotBox(c, w).value)
  {
    BallotBoxProofs.NewBoxIsValid(c.epoch);
  }

  lemma {:induction false} InitBaseRouterKeeps(c: Params, w: World)
    requires ParamsOk(c) && Inv(c, w) && DoInitBaseRouter(c, w).Ok?
    ensures Inv(c, DoInitBaseRouter(c, w).value)
  {
  }

  lemma {:induction false} ReallocBaseRouterKeeps(c: Params, w: World)
    requires ParamsOk(c) && Inv(c, w) && DoReallocBaseRouter(w).Ok?
    ensures Inv(c, DoReallocBaseRouter(w).value)
  {
  }

  lemma {:induction false} DepositBaseKeeps(c: Params, w: World, amount: U64)
    requires ParamsOk(c) && Inv(c, w) && DoDepositBase(w, amount).Ok?
    ensures Inv(c, DoDepositBase(w, amount).value)
  {
  }
}
