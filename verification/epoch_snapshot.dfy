/** Operator and epoch snapshots (core/src/epoch_snapshot.rs). */
module EpochSnapshotSpec {
  import opened Common
  import opened StakeWeight
  import opened FeesSpec

  /** `VaultOperatorStakeWeight`: what one vault delegated to the operator. */
  datatype Delegation = Delegation(vault: Key, vaultIndex: U64, group: nat, weights: StakeWeights)

  const EMPTY_DELEGATION := Delegation(DEFAULT_KEY, U64_MAX, 0, ZERO_WEIGHTS)

  type DelegationTable = s: seq<Delegation> | |s| == MAX_VAULTS witness Filled(MAX_VAULTS, EMPTY_DELEGATION)

  datatype OperatorSnapshot = OperatorSnapshot(
    operator: Key,
    isActive: bool,
    ncnOperatorIndex: U64,
    feeBps: U16,
    slotFinalized: U64,
    delegationCount: U64,
    registered: U64,
    validDelegations: U64,
    weights: StakeWeights,
    delegations: DelegationTable)
  {
    predicate Finalized() {
      registered == delegationCount
    }
  }

  /** `OperatorSnapshot::initialize`: an inactive operator expects no delegations and is final at once. */
  function InitOperator(operator: Key, ncnOperatorIndex: U64, isActive: bool, feeBps: U16, vaultCount: U64,
                        slot: U64): Result<OperatorSnapshot> {
    if vaultCount > MAX_VAULTS then Err(TooManyVaultOperatorDelegations)
    else Ok(OperatorSnapshot(operator, isActive, ncnOperatorIndex,
                             if isActive then feeBps else 0,
                             if isActive then 0 else slot,
                             if isActive then vaultCount else 0,
                             0, 0, ZERO_WEIGHTS, Filled(MAX_VAULTS, EMPTY_DELEGATION)))
  }

  predicate ContainsVaultIndex(delegations: seq<Delegation>, vaultIndex: U64) {
    exists i :: 0 <= i < |delegations| && delegations[i].vaultIndex == vaultIndex
  }

  /** `insert_vault_operator_stake_weight`. */
  function InsertDelegation(o: OperatorSnapshot, d: Delegation): Result<OperatorSnapshot> {
    var next :- CheckedAdd64(o.registered, 1);
    if next > MAX_VAULTS then Err(TooManyVaultOperatorDelegations)
    else if ContainsVaultIndex(o.delegations, d.vaultIndex) then Err(DuplicateVaultOperatorDelegation)
    else Ok(o.(delegations := o.delegations[o.registered := d]))
  }

  /** `increment_vault_operator_delegation_registration`. */
  function RegisterDelegation(o: OperatorSnapshot, slot: U64, d: Delegation): Result<OperatorSnapshot> {
    if o.Finalized() then Err(VaultOperatorDelegationFinalized)
    else
      var o1 :- InsertDelegation(o, d);
      var registered :- CheckedAdd64(o.registered, 1);
      var valid :- if d.weights.total > 0 then CheckedAdd64(o.validDelegations, 1) else Ok(o.validDelegations);
      var weights :- Add(o.weights, d.weights);
      var o2 := o1.(registered := registered, validDelegations := valid, weights := weights);
      Ok(if o2.Finalized() then o2.(slotFinalized := slot) else o2)
  }

  datatype EpochSnapshot = EpochSnapshot(
    fees: Fees,
    slotFinalized: U64,
    operatorCount: U64,
    vaultCount: U64,
    operatorsRegistered: U64,
    validDelegations: U64,
    weights: StakeWeights)
  {
    predicate Finalized() {
      operatorsRegistered == operatorCount
    }
  }

  function NewEpochSnapshot(fees: Fees, operatorCount: U64, vaultCount: U64): EpochSnapshot {
    EpochSnapshot(fees, 0, operatorCount, vaultCount, 0, 0, ZERO_WEIGHTS)
  }

  /** `increment_operator_registration`. */
  function RegisterOperator(e: EpochSnapshot, slot: U64, validDelegations: U64,
                            weights: StakeWeights): Result<EpochSnapshot> {
    if e.Finalized() then Err(OperatorFinalized)
    else
      var registered :- CheckedAdd64(e.operatorsRegistered, 1);
      var valid :- CheckedAdd64(e.validDelegations, validDelegations);
      var sum :- Add(e.weights, weights);
      var e' := e.(operatorsRegistered := registered, validDelegations := valid, weights := sum);
      Ok(if e'.Finalized() then e'.(slotFinalized := slot) else e')
  }
}

module EpochSnapshotProofs {
  import opened Common
  import opened Sums
  import opened StakeWeight
  import opened EpochSnapshotSpec

  function Delegated(delegations: seq<Delegation>, m: Measure): (r: seq<nat>)
    ensures |r| == |delegations|
  {
    seq(|delegations|, i requires 0 <= i < |delegations| =>
      if delegations[i] == EMPTY_DELEGATION then 0 else delegations[i].weights.Amount(m))
  }

  function HasStake(delegations: seq<Delegation>): (r: seq<nat>)
    ensures |r| == |delegations|
  {
    seq(|delegations|, i requires 0 <= i < |delegations| => if delegations[i].weights.total > 0 then 1 else 0)
  }

  /** An operator snapshot's totals are the sums over its registered delegations, which fill a prefix
      of the table and come from distinct vaults. */
  ghost predicate OperatorOk(o: OperatorSnapshot) {
    && o.registered <= o.delegationCount <= MAX_VAULTS
    && (!o.isActive ==> o.delegationCount == 0 && o.feeBps == 0)
    && (forall i :: 0 <= i < o.registered ==>
         o.delegations[i].vault != DEFAULT_KEY && o.delegations[i].vaultIndex != U64_MAX)
    && (forall i :: o.registered <= i < MAX_VAULTS ==> o.delegations[i] == EMPTY_DELEGATION)
    && (forall i, j :: 0 <= i < j < o.registered ==> o.delegations[i].vaultIndex != o.delegations[j].vaultIndex)
    && (forall m :: m != Heads ==> o.weights.Amount(m) == Sum(Delegated(o.delegations, m)))
    && o.registered == Sum(Delegated(o.delegations, Heads))
    && o.validDelegations == Sum(HasStake(o.delegations))
  }

  lemma {:induction false} InitOperatorOk(operator: Key, index: U64, isActive: bool, feeBps: U16, vaultCount: U64,
                                          slot: U64)
    requires InitOperator(operator, index, isActive, feeBps, vaultCount, slot).Ok?
    ensures OperatorOk(InitOperator(operator, index, isActive, feeBps, vaultCount, slot).value)
  {
    var o := InitOperator(operator, index, isActive, feeBps, vaultCount, slot).value;
    forall m ensures Sum(Delegated(o.delegations, m)) == 0 {
      SumZero(Delegated(o.delegations, m));
    }
    SumZero(HasStake(o.delegations));
  }

  /** A new snapshot holds what it was made with; an inactive operator takes no fee, expects nothing and
      is final at once. Only the number of vaults can be refused. */
  lemma {:induction false} InitOperatorExactly(operator: Key, index: U64, isActive: bool, feeBps: U16, vaultCount: U64,
                                               slot: U64)
    ensures InitOperator(operator, index, isActive, feeBps, vaultCount, slot).Ok? <==> vaultCount <= MAX_VAULTS
    ensures vaultCount <= MAX_VAULTS ==>
      var o := InitOperator(operator, index, isActive, feeBps, vaultCount, slot).value;
      && o.operator == operator && o.ncnOperatorIndex == index && o.isActive == isActive
      && o.registered == o.validDelegations == 0 && o.weights == ZERO_WEIGHTS
      && (forall i :: 0 <= i < MAX_VAULTS ==> o.delegations[i] == EMPTY_DELEGATION)
      && if isActive then o.feeBps == feeBps && o.delegationCount == vaultCount && o.slotFinalized == 0
         else o.feeBps == 0 && o.Finalized() && o.slotFinalized == slot
  {
  }

  lemma {:induction false} AddedAmount(a: StakeWeights, b: StakeWeights, m: Measure)
    requires Add(a, b).Ok? && m != Heads
    ensures Add(a, b).value.Amount(m) == a.Amount(m) + b.Amount(m)
  {
  }

  lemma {:induction false} InsertedAmounts(delegations: DelegationTable, i: nat, d: Delegation, m: Measure)
    requires i < MAX_VAULTS && delegations[i] == EMPTY_DELEGATION && d != EMPTY_DELEGATION
    ensures Sum(Delegated(delegations[i := d], m)) == Sum(Delegated(delegations, m)) + d.weights.Amount(m)
    ensures Sum(HasStake(delegations[i := d])) == Sum(HasStake(delegations)) + if d.weights.total > 0 then 1 else 0
  {
    assert Delegated(delegations[i := d], m) == Delegated(delegations, m)[i := d.weights.Amount(m)];
    SumUpdate(Delegated(delegations, m), i, d.weights.Amount(m));
    var flag := if d.weights.total > 0 then 1 else 0;
    assert HasStake(delegations[i := d]) == HasStake(delegations)[i := flag];
    SumUpdate(HasStake(delegations), i, flag);
  }

  /** What a registration writes. */
  lemma {:induction false} RegisteredState(o: OperatorSnapshot, slot: U64, d: Delegation)
    requires OperatorOk(o) && RegisterDelegation(o, slot, d).Ok?
    ensures Add(o.weights, d.weights).Ok? && o.registered < o.delegationCount
    ensures var o' := RegisterDelegation(o, slot, d).value;
      && o'.delegations == o.delegations[o.registered := d]
      && o'.registered == o.registered + 1
      && o'.weights == Add(o.weights, d.weights).value
      && o'.validDelegations == o.validDelegations + (if d.weights.total > 0 then 1 else 0)
      && o' == o.(slotFinalized := o'.slotFinalized, registered := o'.registered,
                  validDelegations := o'.validDelegations,
                  weights := o'.weights, delegations := o'.delegations)
    ensures forall i :: 0 <= i < o.registered ==> o.delegations[i].vaultIndex != d.vaultIndex
  {
    assert !ContainsVaultIndex(o.delegations, d.vaultIndex);
  }

  lemma {:induction false} HasStakeBound(delegations: DelegationTable)
    ensures Sum(HasStake(delegations)) <= MAX_VAULTS
  {
    SumOfFlags(HasStake(delegations));
  }

  /** A delegation is registered exactly when the operator still expects one, its vault has not
      registered before, and the sums fit; it is written behind the ones before it, and the last one
      expected dates the snapshot. */
  lemma {:induction false} RegisterDelegationExactly(o: OperatorSnapshot, slot: U64, d: Delegation)
    requires OperatorOk(o) && d.vaultIndex != U64_MAX
    ensures RegisterDelegation(o, slot, d).Ok? <==>
      && o.registered < o.delegationCount
      && (forall i :: 0 <= i < o.registered ==> o.delegations[i].vaultIndex != d.vaultIndex)
      && o.weights.total + d.weights.total <= U128_MAX
      && (forall g :: 0 <= g < FEE_GROUP_COUNT ==> o.weights.groups[g] + d.weights.groups[g] <= U128_MAX)
    ensures RegisterDelegation(o, slot, d).Ok? ==>
      var o' := RegisterDelegation(o, slot, d).value;
      && o'.registered == o.registered + 1 && o'.delegations == o.delegations[o.registered := d]
      && o'.slotFinalized == if o.registered + 1 == o.delegationCount then slot else o.slotFinalized
  {
    HasStakeBound(o.delegations);
  }

  /** An operator is counted exactly while one is missing and everything fits; the last one dates the
      epoch's snapshot, and what it was made with stays. */
  lemma {:induction false} RegisterOperatorExactly(e: EpochSnapshot, slot: U64, valid: U64, w: StakeWeights)
    ensures RegisterOperator(e, slot, valid, w).Ok? <==>
      && e.operatorsRegistered != e.operatorCount
      && e.operatorsRegistered + 1 <= U64_MAX && e.validDelegations + valid <= U64_MAX
      && e.weights.total + w.total <= U128_MAX
      && (forall g :: 0 <= g < FEE_GROUP_COUNT ==> e.weights.groups[g] + w.groups[g] <= U128_MAX)
    ensures RegisterOperator(e, slot, valid, w).Ok? ==>
      var e' := RegisterOperator(e, slot, valid, w).value;
      && e'.operatorsRegistered == e.operatorsRegistered + 1 && e'.validDelegations == e.validDelegations + valid
      && (forall m :: m != Heads ==> e'.weights.Amount(m) == e.weights.Amount(m) + w.Amount(m))
      && e'.slotFinalized == (if e.operatorsRegistered + 1 == e.operatorCount then slot else e.slotFinalized)
      && e'.fees == e.fees && e'.operatorCount == e.operatorCount && e'.vaultCount == e.vaultCount
  {
  }

  /** Registering a delegation keeps the totals equal to the sums. */
  lemma {:induction false} RegisterDelegationKeeps(o: OperatorSnapshot, slot: U64, d: Delegation)
    requires OperatorOk(o) && d.vault != DEFAULT_KEY && d.vaultIndex != U64_MAX
    requires RegisterDelegation(o, slot, d).Ok?
    ensures var o' := RegisterDelegation(o, slot, d).value;
      && OperatorOk(o')
      && o'.delegations == o.delegations[o.registered := d]
      && o'.registered == o.registered + 1
      && o' == o.(slotFinalized := o'.slotFinalized, registered := o'.registered,
                  validDelegations := o'.validDelegations,
                  weights := o'.weights, delegations := o'.delegations)
  {
    RegisteredState(o, slot, d);
    var o' := RegisterDelegation(o, slot, d).value;
    InsertedAmounts(o.delegations, o.registered, d, Heads);
    forall m | m != Heads ensures o'.weights.Amount(m) == Sum(Delegated(o'.delegations, m)) {
      InsertedAmounts(o.delegations, o.registered, d, m);
      AddedAmount(o.weights, d.weights, m);
    }
  }
}

/** The two snapshot accounts, written in place. */
module EpochSnapshotAccounts {
  import opened Common
  import opened StakeWeight
  import opened FeesSpec
  import Spec = EpochSnapshotSpec

  class OperatorSnapshot {
    var operator: Key
    var isActive: bool
    var ncnOperatorIndex: U64
    var feeBps: U16
    var slotFinalized: U64
    var delegationCount: U64
    var registered: U64
    var validDelegations: U64
    var weights: StakeWeights
    const delegations: array<Spec.Delegation>

    ghost predicate Shaped() {
      delegations.Length == MAX_VAULTS
    }

    ghost function State(): Spec.OperatorSnapshot
      requires Shaped()
      reads this, delegations
    {
      Spec.OperatorSnapshot(operator, isActive, ncnOperatorIndex, feeBps, slotFinalized, delegationCount, registered,
                            validDelegations, weights, delegations[..])
    }

    /** A freshly created account, before it is initialized. */
    constructor ()
      ensures Shaped() && fresh(delegations)
    {
      operator, ncnOperatorIndex, isActive := DEFAULT_KEY, 0, false;
      feeBps, slotFinalized, delegationCount, registered, validDelegations, weights := 0, 0, 0, 0, 0, ZERO_WEIGHTS;
      delegations := new Spec.Delegation[MAX_VAULTS](_ => Spec.EMPTY_DELEGATION);
    }

    method Initialize(operator: Key, ncnOperatorIndex: U64, isActive: bool, feeBps: U16, vaultCount: U64, slot: U64)
      returns (r: Result<()>)
      requires Shaped()
      modifies this, delegations
      ensures match Spec.InitOperator(operator, ncnOperatorIndex, isActive, feeBps, vaultCount, slot)
        case Ok(o) => r.Ok? && State() == o
        case Err(e) => r == Err(e)
    {
      if vaultCount > MAX_VAULTS {
        return Err(TooManyVaultOperatorDelegations);
      }
      this.operator, this.ncnOperatorIndex, this.isActive := operator, ncnOperatorIndex, isActive;
      slotFinalized := if !isActive then slot else 0;
      this.feeBps := if isActive then feeBps else 0;
      delegationCount := if isActive then vaultCount else 0;
      registered, validDelegations, weights := 0, 0, ZERO_WEIGHTS;
      forall i | 0 <= i < delegations.Length {
        delegations[i] := Spec.EMPTY_DELEGATION;
      }
      assert delegations[..] == Filled(MAX_VAULTS, Spec.EMPTY_DELEGATION);
      return Ok(());
    }

    method ContainsVaultIndex(vaultIndex: U64) returns (found: bool)
      requires Shaped()
      ensures found == Spec.ContainsVaultIndex(delegations[..], vaultIndex)
    {
      for i := 0 to delegations.Length
        invariant forall j :: 0 <= j < i ==> delegations[j].vaultIndex != vaultIndex
      {
        if delegations[i].vaultIndex == vaultIndex {
          assert delegations[..][i].vaultIndex == vaultIndex;
          return true;
        }
      }
      return false;
    }

    method InsertVaultOperatorStakeWeight(d: Spec.Delegation) returns (r: Result<()>)
      requires Shaped()
      modifies delegations
      ensures match Spec.InsertDelegation(old(State()), d)
        case Ok(o) => r.Ok? && State() == o
        case Err(e) => r == Err(e)
    {
      var next :- CheckedAdd64(registered, 1);
      if next > MAX_VAULTS {
        return Err(TooManyVaultOperatorDelegations);
      }
      var found := ContainsVaultIndex(d.vaultIndex);
      if found {
        return Err(DuplicateVaultOperatorDelegation);
      }
      delegations[registered] := d;
      assert delegations[..] == old(delegations[..])[registered := d];
      return Ok(());
    }

    method IncrementVaultOperatorDelegationRegistration(slot: U64, d: Spec.Delegation) returns (r: Result<()>)
      requires Shaped()
      modifies this, delegations
      ensures match Spec.RegisterDelegation(old(State()), slot, d)
        case Ok(o) => r.Ok? && State() == o
        case Err(e) => r == Err(e)
    {
      if registered == delegationCount {
        return Err(VaultOperatorDelegationFinalized);
      }
      var _ :- InsertVaultOperatorStakeWeight(d);
      registered := registered + 1;
      if d.weights.total > 0 {
        validDelegations :- CheckedAdd64(validDelegations, 1);
      }
      weights :- Increment(weights, d.weights);
      if registered == delegationCount {
        slotFinalized := slot;
      }
      return Ok(());
    }
  }

  class EpochSnapshot {
    var fees: Fees
    var slotFinalized: U64
    var operatorCount: U64
    var vaultCount: U64
    var operatorsRegistered: U64
    var validDelegations: U64
    var weights: StakeWeights

    ghost function State(): Spec.EpochSnapshot
      reads this
    {
      Spec.EpochSnapshot(fees, slotFinalized, operatorCount, vaultCount, operatorsRegistered, validDelegations, weights)
    }

    constructor (fees: Fees, operatorCount: U64, vaultCount: U64)
      ensures State() == Spec.NewEpochSnapshot(fees, operatorCount, vaultCount)
    {
      this.fees, this.operatorCount, this.vaultCount := fees, operatorCount, vaultCount;
      slotFinalized, operatorsRegistered, validDelegations, weights := 0, 0, 0, ZERO_WEIGHTS;
    }

    method IncrementOperatorRegistration(slot: U64, valid: U64, stake: StakeWeights) returns (r: Result<()>)
      modifies this
      ensures match Spec.RegisterOperator(old(State()), slot, valid, stake)
        case Ok(e) => r.Ok? && State() == e
        case Err(e) => r == Err(e)
    {
      if operatorsRegistered == operatorCount {
        return Err(OperatorFinalized);
      }
      operatorsRegistered :- CheckedAdd64(operatorsRegistered, 1);
      validDelegations :- CheckedAdd64(validDelegations, valid);
      weights :- Increment(weights, stake);
      if operatorsRegistered == operatorCount {
        slotFinalized := slot;
      }
      return Ok(());
    }
  }
}
