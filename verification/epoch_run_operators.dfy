/** The invariants through the snapshots of single operators. */
module EpochRunOperators {
  import opened Common
  import opened Sums
  import opened StakeWeight
  import opened InstructionsSpec
  import opened EpochRunSpec
  import opened EpochRunInvariants
  import opened EpochRunSnapshots
  import S = EpochSnapshotSpec
  import SnapshotProofs = EpochSnapshotProofs
  import B = BallotBoxSpec
  import Ncn = NcnRewardRouterSpec
  import NcnProofs = NcnRewardRouterProofs
  import E = EpochStateSpec

  // ------------------------------------------------------------------
  // Sums
  // ------------------------------------------------------------------

  /** Replacing an operator's account moves every sum by what the account contributes. */
  lemma {:induction false} SumsUpdate(operators: OperatorAccounts, i: E.OperatorIndex, a: Account<S.OperatorSnapshot>,
                                      m: Measure)
    requires !IsFinal(operators[i])
    ensures Sum(FinalFlags(operators[i := a])) == Sum(FinalFlags(operators)) + if IsFinal(a) then 1 else 0
    ensures Sum(FinalValid(operators[i := a]))
         == Sum(FinalValid(operators)) + if IsFinal(a) then a.data.validDelegations else 0
    ensures Sum(FinalWeights(operators[i := a], m))
         == Sum(FinalWeights(operators, m)) + if IsFinal(a) then a.data.weights.Amount(m) else 0
  {
    var flag, valid, weight := if IsFinal(a) then 1 else 0, if IsFinal(a) then a.data.validDelegations else 0,
                               if IsFinal(a) then a.data.weights.Amount(m) else 0;
    assert FinalFlags(operators[i := a]) == FinalFlags(operators)[i := flag];
    assert FinalValid(operators[i := a]) == FinalValid(operators)[i := valid];
    assert FinalWeights(operators[i := a], m) == FinalWeights(operators, m)[i := weight];
    SumUpdate(FinalFlags(operators), i, flag);
    SumUpdate(FinalValid(operators), i, valid);
    SumUpdate(FinalWeights(operators, m), i, weight);
  }

  /** An account that is not final contributes nothing. */
  lemma {:induction false} OpenAccountKeepsSums(s: S.EpochSnapshot, operators: OperatorAccounts, i: E.OperatorIndex,
                                                a: Account<S.OperatorSnapshot>)
    requires SumsOf(s, operators) && !IsFinal(operators[i]) && !IsFinal(a)
    ensures SumsOf(s, operators[i := a])
  {
    SumsUpdate(operators, i, a, Heads);
    forall m | m != Heads ensures s.weights.Amount(m) == Sum(FinalWeights(operators[i := a], m)) {
      SumsUpdate(operators, i, a, m);
    }
  }

  /** Registering an operator adds exactly what its final snapshot contributes. */
  lemma {:induction false} RegisterKeepsSums(s: S.EpochSnapshot, operators: OperatorAccounts, i: E.OperatorIndex,
                                             a: Account<S.OperatorSnapshot>, slot: U64)
    requires SumsOf(s, operators) && !IsFinal(operators[i]) && IsFinal(a)
    requires S.RegisterOperator(s, slot, a.data.validDelegations, a.data.weights).Ok?
    ensures var s' := S.RegisterOperator(s, slot, a.data.validDelegations, a.data.weights).value;
      && SumsOf(s', operators[i := a])
      && s'.operatorsRegistered == s.operatorsRegistered + 1
      && s'.operatorCount == s.operatorCount && s'.vaultCount == s.vaultCount && s'.fees == s.fees
  {
    var s' := S.RegisterOperator(s, slot, a.data.validDelegations, a.data.weights).value;
    SumsUpdate(operators, i, a, Heads);
    forall m | m != Heads ensures s'.weights.Amount(m) == Sum(FinalWeights(operators[i := a], m)) {
      SumsUpdate(operators, i, a, m);
      SnapshotProofs.AddedAmount(s.weights, a.data.weights, m);
    }
  }

  // ------------------------------------------------------------------
  // Votes and routers of an operator that changes
  // ------------------------------------------------------------------

  /** No vote refers to an operator without a snapshot, and none was cast while one is open. */
  lemma {:induction false} OpenOperatorMeansNoVotes(c: Params, w: World, i: E.OperatorIndex)
    requires Inv(c, w) && !w.operators[i].Absent? && !IsFinal(w.operators[i])
    ensures w.snapshot.Held() && !w.snapshot.data.Finalized()
    ensures w.box.Held() ==> w.box.data.operatorsVoted == 0
  {
    assert OperatorAccountOk(c, i, w.operators[i], w.state.operators[i], OperatorCount(w.snapshot),
                             VaultCount(w.snapshot));
    FinalMeansAllFinal(c, w);
  }

  lemma {:induction false} OneOperator(c: Params, operators: OperatorAccounts, progress: E.OperatorProgress,
                                       operatorCount: nat, vaultCount: nat,
                                       i: E.OperatorIndex, a: Account<S.OperatorSnapshot>, p: E.Progress)
    requires OperatorsOk(c, operators, progress, operatorCount, vaultCount)
    requires OperatorAccountOk(c, i, a, p, operatorCount, vaultCount)
    ensures OperatorsOk(c, operators[i := a], progress[i := p], operatorCount, vaultCount)
  {
    var operators', progress' := operators[i := a], progress[i := p];
    forall j: E.OperatorIndex
      ensures OperatorAccountOk(c, j, operators'[j], progress'[j], operatorCount, vaultCount)
    {
      assert OperatorAccountOk(c, j, operators[j], progress[j], operatorCount, vaultCount);
    }
  }

  lemma {:induction false} OneOperatorMirrored(operators: OperatorAccounts, statuses: E.OperatorStatuses,
                                               i: E.OperatorIndex,
                                               a: Account<S.OperatorSnapshot>, status: E.Status)
    requires OperatorsMirrored(operators, statuses) && Mirrors(a, status, E.Created)
    ensures OperatorsMirrored(operators[i := a], statuses[i := status])
  {
  }

  /** Routers of other operators do not see the change; those of this one have none yet. */
  lemma {:induction false} NewOperatorRouters(c: Params, ncn: RouterAccounts, operators: OperatorAccounts,
                                              balances: Balances,
                                              progress: E.RouterProgress, grown: Flags, i: E.OperatorIndex,
                                              a: Account<S.OperatorSnapshot>)
    requires NcnOk(c, ncn, operators, balances, progress, grown) && !operators[i].Held()
    ensures NcnOk(c, ncn, operators[i := a], balances, progress, grown)
  {
    forall k: E.RouterIndex
      ensures NcnRouterOk(c, k, ncn[k], operators[i := a][E.OperatorOf(k)], balances[k], progress[k], grown[k])
    {
      assert NcnRouterOk(c, k, ncn[k], operators[E.OperatorOf(k)], balances[k], progress[k], grown[k]);
    }
  }

  /** More delegations only allow more routes. */
  lemma {:induction false} BooksOutliveGrowth(r: Ncn.Router, o: S.OperatorSnapshot, o': S.OperatorSnapshot)
    requires NcnProofs.BooksOk(r, o) && SnapshotProofs.OperatorOk(o) && o.registered < MAX_VAULTS
    requires o'.delegations == o.delegations[o.registered := o'.delegations[o.registered]]
    ensures NcnProofs.BooksOk(r, o')
  {
    forall k | k in NcnProofs.Vaults(o.delegations) ensures k in NcnProofs.Vaults(o'.delegations) {
      var j :| 0 <= j < |o.delegations| && o.delegations[j] != S.EMPTY_DELEGATION && o.delegations[j].vault == k;
      assert o'.delegations[j] == o.delegations[j];
    }
  }

  /** The runs interrupted at this moment are marked; no other router notices. */
  lemma {:induction false} GrownOperatorRouters(c: Params, w: World, i: E.OperatorIndex, o': S.OperatorSnapshot)
    requires NcnOk(c, w.ncn, w.operators, w.ncnBalances, w.state.ncn, w.grown)
    requires w.operators[i].Live? && SnapshotProofs.OperatorOk(w.operators[i].data)
    requires w.operators[i].data.registered < MAX_VAULTS
    requires var o := w.operators[i].data; o'.delegations == o.delegations[o.registered := o'.delegations[o.registered]]
    ensures NcnOk(c, w.ncn, w.operators[i := Live(o')], w.ncnBalances, w.state.ncn, MarkGrown(w, i))
  {
    var operators', grown' := w.operators[i := Live(o')], MarkGrown(w, i);
    forall k: E.RouterIndex
      ensures NcnRouterOk(c, k, w.ncn[k], operators'[E.OperatorOf(k)], w.ncnBalances[k], w.state.ncn[k], grown'[k])
    {
      assert NcnRouterOk(c, k, w.ncn[k], w.operators[E.OperatorOf(k)], w.ncnBalances[k], w.state.ncn[k], w.grown[k]);
      if E.OperatorOf(k) == i && w.ncn[k].Held() {
        BooksOutliveGrowth(w.ncn[k].data, w.operators[i].data, o');
      }
    }
  }

  // ------------------------------------------------------------------
  // The instructions
  // ------------------------------------------------------------------

  lemma {:induction false} InitOperatorKeeps(c: Params, w: World, i: E.OperatorIndex)
    requires ParamsOk(c) && Inv(c, w) && DoInitOperator(w, i).Ok?
    ensures Inv(c, DoInitOperator(w, i).value)
  {
    var w' := DoInitOperator(w, i).value;
    OneOperator(c, w.operators, w.state.operators, OperatorCount(w.snapshot), VaultCount(w.snapshot), i, Allocated,
                w.state.operators[i]);
    assert w.state.operators[i := w.state.operators[i]] == w.state.operators;
    OpenAccountKeepsSums(w.snapshot.data, w.operators, i, Allocated);
    NewOperatorRouters(c, w.ncn, w.operators, w.ncnBalances, w.state.ncn, w.grown, i, Allocated);
    if w.box.Held() {
      VotesSurvive(c, w.operators, i, Allocated, w.box.data);
    }
  }

  /** Votes refer to snapshots that exist. */
  lemma {:induction false} VotesSurvive(c: Params, operators: OperatorAccounts, i: E.OperatorIndex,
                                        a: Account<S.OperatorSnapshot>, box: B.Box)
    requires !operators[i].Held()
    ensures VotesOk(c, operators, box) ==> VotesOk(c, operators[i := a], box)
  {
    if VotesOk(c, operators, box) {
      forall v | 0 <= v < box.operatorsVoted && v < |box.votes| ensures VoteOk(c, operators[i := a], box.votes[v]) {
        assert VoteOk(c, operators, box.votes[v]);
      }
    }
  }

  lemma {:induction false} ReallocOperatorKeeps(c: Params, w: World, i: E.OperatorIndex, isActive: bool, feeBps: Bps)
    requires ParamsOk(c) && Inv(c, w) && DoReallocOperator(c, w, i, isActive, feeBps).Ok?
    ensures Inv(c, DoReallocOperator(c, w, i, isActive, feeBps).value)
  {
    var w' := DoReallocOperator(c, w, i, isActive, feeBps).value;
    var o := w'.operators[i].data;
    OpenOperatorMeansNoVotes(c, w, i);
    SnapshotProofs.InitOperatorOk(c.operators[i], i, isActive, feeBps, w.snapshot.data.vaultCount, w.slot);
    assert OperatorAccountOk(c, i, w.operators[i], w.state.operators[i], OperatorCount(w.snapshot),
                             VaultCount(w.snapshot));
    OneOperator(c, w.operators, w.state.operators, OperatorCount(w.snapshot), VaultCount(w.snapshot), i, Live(o),
                w'.state.operators[i]);
    OneOperatorMirrored(w.operators, w.state.status.operators, i, Live(o), E.Created);
    NewOperatorRouters(c, w.ncn, w.operators, w.ncnBalances, w.state.ncn, w.grown, i, Live(o));
    if isActive {
      OpenAccountKeepsSums(w.snapshot.data, w.operators, i, Live(o));
    } else {
      RegisterKeepsSums(w.snapshot.data, w.operators, i, Live(o), w.slot);
    }
  }

  /** The instruction on the accounts it is given. */
  function Delegate(w: World, i: E.OperatorIndex, d: Delegated): Result<(E.State, S.EpochSnapshot, S.OperatorSnapshot)>
    requires w.table.Live? && w.snapshot.Live? && w.operators[i].Live?
  {
    InstructionsSpec.SnapshotDelegation(w.state, w.table.data, w.snapshot.data, w.operators[i].data, d, w.slot)
  }

  /** The operator's side of a delegation. */
  lemma {:induction false} DelegationRegistered(c: Params, w: World, i: E.OperatorIndex, d: Delegated)
    returns (o': S.OperatorSnapshot)
    requires ParamsOk(c) && Inv(c, w) && DoSnapshotDelegation(w, i, d).Ok?
    ensures var w', o := DoSnapshotDelegation(w, i, d).value, w.operators[i].data;
      && !o.Finalized() && SnapshotProofs.OperatorOk(o) && o.registered < MAX_VAULTS
      && w'.operators == w.operators[i := Live(o')]
      && o'.delegations == o.delegations[o.registered := o'.delegations[o.registered]]
      && w'.state.operators == w.state.operators[i := w'.state.operators[i]]
      && OperatorAccountOk(c, i, Live(o'), w'.state.operators[i], OperatorCount(w.snapshot), VaultCount(w.snapshot))
    ensures Delegate(w, i, d).Ok?
    ensures o' == Delegate(w, i, d).value.2
  {
    assert OperatorAccountOk(c, i, w.operators[i], w.state.operators[i], OperatorCount(w.snapshot),
                             VaultCount(w.snapshot));
    o' := DelegationWorld(w, i, d);
  }

  /** What the instruction writes for the operator. */
  lemma {:induction false} DelegationWorld(w: World, i: E.OperatorIndex, d: Delegated) returns (o': S.OperatorSnapshot)
    requires DoSnapshotDelegation(w, i, d).Ok? && SnapshotProofs.OperatorOk(w.operators[i].data)
    requires w.operators[i].data.ncnOperatorIndex == i
    ensures Delegate(w, i, d).Ok?
    ensures o' == Delegate(w, i, d).value.2
    ensures var w', o := DoSnapshotDelegation(w, i, d).value, w.operators[i].data;
      && !o.Finalized() && o.registered < o.delegationCount <= MAX_VAULTS && o.isActive
      && SnapshotProofs.OperatorOk(o') && o'.registered == o.registered + 1
      && o' == o.(slotFinalized := o'.slotFinalized, registered := o'.registered,
                  validDelegations := o'.validDelegations,
                  weights := o'.weights, delegations := o'.delegations)
      && o'.delegations == o.delegations[o.registered := o'.delegations[o.registered]]
      && w'.operators == w.operators[i := Live(o')]
      && w'.state.operators[i].tally == w.state.operators[i].tally + 1
      && w'.state.operators[i].total == w.state.operators[i].total
      && w'.state.operators == w.state.operators[i := w'.state.operators[i]]
  {
    var o := w.operators[i].data;
    var delegation := DelegationOf(w.table.data, d).value;
    SnapshotProofs.RegisterDelegationKeeps(o, w.slot, delegation);
    SnapshotProofs.RegisteredState(o, w.slot, delegation);
    o' := S.RegisterDelegation(o, w.slot, delegation).value;
  }

  /** The epoch snapshot's side: it is told about the operator's last delegation, and only then. */
  lemma {:induction false} DelegationCounted(w: World, i: E.OperatorIndex, d: Delegated, o': S.OperatorSnapshot)
    requires w.snapshot.Live? && w.operators[i].Live? && !w.operators[i].data.Finalized() && w.table.Live?
    requires SumsOf(w.snapshot.data, w.operators)
    requires DoSnapshotDelegation(w, i, d).Ok?
    requires o' == Delegate(w, i, d).value.2
    ensures var w' := DoSnapshotDelegation(w, i, d).value;
      && w'.snapshot.Live? && SumsOf(w'.snapshot.data, w.operators[i := Live(o')])
      && w'.snapshot.data.operatorCount == w.snapshot.data.operatorCount
      && w'.snapshot.data.vaultCount == w.snapshot.data.vaultCount
      && w'.snapshot.data.operatorsRegistered == w.snapshot.data.operatorsRegistered + (if o'.Finalized() then 1 else 0)
      && w'.state.snapshot.tally == w.state.snapshot.tally + (if o'.Finalized() then 1 else 0)
      && w'.state == w.state.(operators := w'.state.operators,
                              snapshot := w.state.snapshot.(tally := w'.state.snapshot.tally))
  {
    if o'.Finalized() {
      RegisterKeepsSums(w.snapshot.data, w.operators, i, Live(o'), w.slot);
    } else {
      OpenAccountKeepsSums(w.snapshot.data, w.operators, i, Live(o'));
    }
  }

  lemma {:induction false} SnapshotDelegationKeeps(c: Params, w: World, i: E.OperatorIndex, d: Delegated)
    requires ParamsOk(c) && Inv(c, w) && DoSnapshotDelegation(w, i, d).Ok?
    ensures Inv(c, DoSnapshotDelegation(w, i, d).value)
  {
    var w' := DoSnapshotDelegation(w, i, d).value;
    OpenOperatorMeansNoVotes(c, w, i);
    var o' := DelegationRegistered(c, w, i, d);
    DelegationCounted(w, i, d, o');
    OneOperator(c, w.operators, w.state.operators, OperatorCount(w.snapshot), VaultCount(w.snapshot), i, Live(o'),
                w'.state.operators[i]);
    OneOperatorMirrored(w.operators, w.state.status.operators, i, Live(o'), w.state.status.operators[i]);
    assert w.state.status.operators[i := w.state.status.operators[i]] == w.state.status.operators;
    GrownOperatorRouters(c, w, i, o');
  }
}
