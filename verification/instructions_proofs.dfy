/** What the instructions that snapshot stake accept, and what a delegation weighs, from the arguments
    and the accounts alone. */
module InstructionsProofs {
  import opened Common
  import opened StakeWeight
  import opened InstructionsSpec
  import W = WeightTableSpec
  import S = EpochSnapshotSpec
  import E = EpochStateSpec

  /** A delegation in a mint of a fee group: what it counts for voting, and by which multiplier its group
      counts it for rewards. */
  datatype Weighed = Weighed(vault: Key, vaultIndex: U64, group: nat, amount: nat, multiplierBps: nat) {
    function Weight(g: nat): nat {
      if g == group then multiplierBps * amount else 0
    }

    /** Both amounts fit 128 bits. */
    predicate Fits() {
      amount <= U128_MAX && multiplierBps * amount <= U128_MAX
    }
  }

  /** The stake of a delegation in a mint of some weight: none while it is not active, and otherwise the
      security times the weight. */
  function Weigh(d: Delegated, mint: W.MintEntry, weight: nat): Weighed {
    Weighed(d.vault, d.vaultIndex, mint.group, if d.isActive then d.security * weight else 0, mint.multiplierBps)
  }

  /** A registered delegation that is that stake. */
  ghost predicate Records(d: S.Delegation, s: Weighed) {
    && d.vault == s.vault && d.vaultIndex == s.vaultIndex && d.group == s.group
    && d.weights.total == s.amount
    && forall g :: 0 <= g < FEE_GROUP_COUNT ==> d.weights.groups[g] == s.Weight(g)
  }

  /** The first entry of a mint. */
  ghost predicate FirstEntry(t: W.Table, mint: Key, r: nat) {
    && r < MAX_ST_MINTS && t.entries[r].entry.mint == mint
    && forall j :: 0 <= j < r ==> t.entries[j].entry.mint != mint
  }

  /** A delegation is weighed exactly when its mint is in the table, its vault is registered, and the
      products fit; then it counts its security, times the weight of the mint's first entry, in that
      entry's fee group and in no other. */
  lemma {:induction false} DelegationExactly(t: W.Table, d: Delegated, r: nat)
    requires FirstEntry(t, d.mint, r)
    ensures DelegationOf(t, d).Ok? <==>
      && d.vaultIndex != U64_MAX && d.vaultIndex in t.vaults
      && Weigh(d, t.entries[r].entry, t.entries[r].weight).Fits()
    ensures DelegationOf(t, d).Ok? ==>
      Records(DelegationOf(t, d).value, Weigh(d, t.entries[r].entry, t.entries[r].weight))
  {
    assert W.FindMint(t.entries, d.mint, 0) == r;
    if DelegationOf(t, d).Ok? {
      var weights := DelegationOf(t, d).value.weights;
      var s := Weigh(d, t.entries[r].entry, t.entries[r].weight);
      assert weights.total == weights.Amount(Stake);
      forall g | 0 <= g < FEE_GROUP_COUNT ensures weights.groups[g] == s.Weight(g) {
        assert weights.groups[g] == weights.Amount(GroupStake(g));
      }
    }
  }

  lemma {:induction false} UnlistedMint(t: W.Table, d: Delegated)
    requires forall j :: 0 <= j < MAX_ST_MINTS ==> t.entries[j].entry.mint != d.mint
    ensures DelegationOf(t, d).Err?
  {
  }

  /** An accepted `snapshot_vault_operator_delegation` appends that stake to the operator's delegations and
      changes nothing else about the ones before it. */
  lemma {:induction false} StakeIsRegistered(state: E.State, t: W.Table, snapshot: S.EpochSnapshot,
                                             o: S.OperatorSnapshot, d: Delegated, slot: U64, r: nat)
    requires SnapshotDelegation(state, t, snapshot, o, d, slot).Ok? && FirstEntry(t, d.mint, r)
    ensures var o' := SnapshotDelegation(state, t, snapshot, o, d, slot).value.2;
      && o.registered < MAX_VAULTS && o'.registered == o.registered + 1
      && Records(o'.delegations[o.registered], Weigh(d, t.entries[r].entry, t.entries[r].weight))
      && (forall j :: 0 <= j < MAX_VAULTS && j != o.registered ==> o'.delegations[j] == o.delegations[j])
      && o'.operator == o.operator && o'.isActive == o.isActive && o'.feeBps == o.feeBps
  {
    DelegationExactly(t, d, r);
  }
}
