/** Apportionment of one validator's tips, and the claim trees made from it
    (meta_merkle_tree/src/generated_merkle_tree.rs). */
module GeneratedMerkleTreeSpec {
  import opened Common
  import opened MerkleTreeSpec

  datatype Delegation = Delegation(stakeAccount: Key, staker: Key, lamports: U64)

  /** The tip distribution account of a validator, if it has one. */
  datatype TipMeta = TipMeta(account: Key, totalTips: U64, validatorFeeBps: U16)

  datatype StakeMeta = StakeMeta(node: Key, tips: Option<TipMeta>, delegations: seq<Delegation>, totalDelegated: U64)

  /** What one claimant may take. */
  datatype Claim = Claim(claimant: Key, amount: U64)

  /** From this target epoch on, delegators claim with their stake account. */
  const STAKE_ACCOUNT_CLAIMS_AFTER: nat := 737

  function ToU64(n: nat): Result<U64> {
    if n > U64_MAX then Err(CheckedMath) else Ok(n)
  }

  /** `amount * bps / 10000` in 128 bits, which must fit back into 64. */
  function FeeOf(amount: U64, bps: U64): Result<U64> {
    var product: nat := amount * bps;
    if product > U128_MAX then Err(CheckedMath) else ToU64(product / MAX_BPS)
  }

  datatype Split = Split(protocol: U64, validator: U64, remaining: U64)

  /** When the fees together exceed the tips, the protocol fee is kept and the validator's is cut. */
  function SplitFees(tips: U64, protocolBps: U64, validatorBps: U16): Result<Split> {
    var protocol :- FeeOf(tips, protocolBps);
    var validator :- FeeOf(tips, validatorBps);
    if protocol + validator > U64_MAX then Err(CheckedMath)
    else if protocol + validator > tips then
      if protocol > tips then Err(CheckedMath) else Ok(Split(protocol, tips - protocol, 0))
    else Ok(Split(protocol, validator, tips - protocol - validator))
  }

  function RewardOf(d: Delegation, remaining: U64, totalDelegated: U64): Result<U64> {
    var product: nat := d.lamports * remaining;
    if product > U128_MAX || totalDelegated == 0 then Err(CheckedMath)
    else ToU64(product / totalDelegated)
  }

  function ClaimantOf(d: Delegation, targetEpoch: U64): Key {
    if targetEpoch > STAKE_ACCOUNT_CLAIMS_AFTER then d.stakeAccount else d.staker
  }

  /** The claims of the delegators, or the first error among them. */
  function DelegatorClaims(ds: seq<Delegation>, remaining: U64, totalDelegated: U64,
                           targetEpoch: U64): Result<seq<Claim>> {
    if ds == [] then Ok([])
    else
      var claims :- DelegatorClaims(ds[..|ds| - 1], remaining, totalDelegated, targetEpoch);
      var amount :- RewardOf(ds[|ds| - 1], remaining, totalDelegated);
      Ok(claims + [Claim(ClaimantOf(ds[|ds| - 1], targetEpoch), amount)])
  }

  /** `vec_from_stake_meta` for a validator with a tip distribution account: the protocol first, the
      validator second, then the delegators. */
  function ClaimsOf(meta: StakeMeta, tips: TipMeta, protocolBps: U64, receiver: Key, epoch: U64): Result<seq<Claim>> {
    var split :- SplitFees(tips.totalTips, protocolBps, tips.validatorFeeBps);
    var targetEpoch :- if epoch < U64_MAX then Ok(epoch + 1) else Err(CheckedMath);
    var claims :- DelegatorClaims(meta.delegations, split.remaining, meta.totalDelegated, targetEpoch);
    Ok([Claim(receiver, split.protocol), Claim(meta.node, split.validator)] + claims)
  }

  /** One validator's claim tree. */
  datatype ClaimTree = ClaimTree(account: Key, claims: seq<Claim>, proofs: seq<seq<Digest>>, root: Digest,
                                 maxTotalClaim: U64, maxNumNodes: nat)

  function ClaimHash(record: Claim -> Digest, c: Claim): Digest {
    record(c)
  }

  function ClaimHashes(record: Claim -> Digest, claims: seq<Claim>): (r: seq<Digest>)
    ensures |r| == |claims|
  {
    seq(|claims|, i requires 0 <= i < |claims| => ClaimHash(record, claims[i]))
  }

  function ProofsOf(h: Hasher<Digest>, leaves: seq<Digest>): (r: seq<seq<Digest>>)
    ensures |r| == |leaves|
  {
    seq(|leaves|, i requires 0 <= i < |leaves| => ProofOf(h, leaves, i))
  }

  function TreeOfClaims(h: Hasher<Digest>, record: Claim -> Digest, tips: TipMeta, claims: seq<Claim>): ClaimTree
    requires claims != []
  {
    var leaves := Leaves(h, ClaimHashes(record, claims));
    ClaimTree(tips.account, claims, ProofsOf(h, leaves), Root(h, true, leaves), tips.totalTips, |claims|)
  }

  /** `new_from_stake_meta_collection`: validators without a tip distribution account are skipped. */
  function Generate(h: Hasher<Digest>, record: Claim -> Digest, metas: seq<StakeMeta>, protocolBps: U64, receiver: Key,
                    epoch: U64)
    : Result<seq<ClaimTree>>
  {
    if metas == [] then Ok([])
    else
      var trees :- Generate(h, record, metas[..|metas| - 1], protocolBps, receiver, epoch);
      var meta := metas[|metas| - 1];
      if meta.tips.None? then Ok(trees)
      else
        var claims :- ClaimsOf(meta, meta.tips.value, protocolBps, receiver, epoch);
        Ok(trees + [TreeOfClaims(h, record, meta.tips.value, claims)])
  }
}

module GeneratedMerkleTreeProofs {
  import opened Common
  import opened Sums
  import opened FlooredShares
  import opened MerkleTreeSpec
  import opened MerkleTreeProofs
  import opened GeneratedMerkleTreeSpec

  function Amounts(claims: seq<Claim>): (r: seq<nat>)
    ensures |r| == |claims|
  {
    seq(|claims|, i requires 0 <= i < |claims| => claims[i].amount)
  }

  function Lamports(ds: seq<Delegation>): (r: seq<nat>)
    ensures |r| == |ds|
  {
    seq(|ds|, i requires 0 <= i < |ds| => ds[i].lamports)
  }

  lemma {:induction false} ProductFits(a: U64, b: U64)
    ensures a * b <= U128_MAX
  {
    assert a * b <= U64_MAX * b;
    assert U64_MAX * b <= U64_MAX * U64_MAX;
  }

  /** The split conserves the tips, never cuts the protocol fee, and fails exactly when the protocol
      fee exceeds the tips or the fees leave 64 bits. */
  lemma {:induction false} SplitConserves(tips: U64, protocolBps: U64, validatorBps: U16)
    ensures var protocol, validator := tips * protocolBps / MAX_BPS, tips * validatorBps / MAX_BPS;
      && (SplitFees(tips, protocolBps, validatorBps).Ok? <==> protocol <= tips && protocol + validator <= U64_MAX)
      && (SplitFees(tips, protocolBps, validatorBps).Ok? ==>
           var s := SplitFees(tips, protocolBps, validatorBps).value;
           && s.protocol as int + s.validator + s.remaining == tips
           && s.protocol == protocol && s.validator as int <= validator
           && (s.validator as int < validator ==> s.remaining == 0))
  {
    ProductFits(tips, protocolBps);
    ProductFits(tips, validatorBps);
    assert tips * protocolBps >= 0 && tips * validatorBps >= 0;
  }

  lemma {:induction false} RewardIsShare(d: Delegation, remaining: U64, totalDelegated: U64)
    ensures RewardOf(d, remaining, totalDelegated).Ok? <==>
      totalDelegated > 0 && Share(remaining, d.lamports, totalDelegated) <= U64_MAX
    ensures RewardOf(d, remaining, totalDelegated).Ok? ==>
      RewardOf(d, remaining, totalDelegated).value == Share(remaining, d.lamports, totalDelegated)
  {
    ProductFits(d.lamports, remaining);
  }

  /** The delegators' claims are the floored shares of what the fees leave. */
  lemma {:induction false} ClaimsAreShares(ds: seq<Delegation>, remaining: U64, totalDelegated: U64, targetEpoch: U64)
    requires DelegatorClaims(ds, remaining, totalDelegated, targetEpoch).Ok?
    ensures var claims := DelegatorClaims(ds, remaining, totalDelegated, targetEpoch).value;
      && |claims| == |ds|
      && Amounts(claims) == Shares(remaining, Lamports(ds), totalDelegated)
      && forall i :: 0 <= i < |ds| ==> claims[i].claimant == ClaimantOf(ds[i], targetEpoch)
  {
    if ds != [] {
      var n := |ds| - 1;
      ClaimsAreShares(ds[..n], remaining, totalDelegated, targetEpoch);
      RewardIsShare(ds[n], remaining, totalDelegated);
      var before := DelegatorClaims(ds[..n], remaining, totalDelegated, targetEpoch).value;
      var claims := DelegatorClaims(ds, remaining, totalDelegated, targetEpoch).value;
      assert Amounts(claims) == Amounts(before) + [claims[n].amount];
      assert Lamports(ds) == Lamports(ds[..n]) + [ds[n].lamports];
    }
  }

  /** With delegations that fit the stated total, no share leaves 64 bits: the claims fail only for
      want of a total to divide by. */
  lemma {:induction false} ClaimsSucceed(ds: seq<Delegation>, remaining: U64, totalDelegated: U64, targetEpoch: U64)
    requires Sum(Lamports(ds)) <= totalDelegated
    ensures DelegatorClaims(ds, remaining, totalDelegated, targetEpoch).Ok? <==> ds == [] || totalDelegated > 0
    decreases |ds|
  {
    if ds != [] {
      var n := |ds| - 1;
      assert Lamports(ds) == Lamports(ds[..n]) + [ds[n].lamports];
      SumSnoc(Lamports(ds[..n]), ds[n].lamports);
      ClaimsSucceed(ds[..n], remaining, totalDelegated, targetEpoch);
      SharesFit(remaining, [ds[n].lamports as nat], totalDelegated);
      SumSnoc([], ds[n].lamports);
      SumAtLeast(Shares(remaining, [ds[n].lamports as nat], totalDelegated), 0);
      assert Shares(remaining, [ds[n].lamports as nat], totalDelegated)[0]
           == Share(remaining, ds[n].lamports, totalDelegated);
      assert [] + [ds[n].lamports as nat] == [ds[n].lamports as nat];
      RewardIsShare(ds[n], remaining, totalDelegated);
    }
  }

  /** The whole apportionment succeeds exactly when the fees do, the target epoch exists, and
      delegators come with a positive total. */
  lemma {:induction false} ApportionmentExactly(meta: StakeMeta, tips: TipMeta, protocolBps: U64, receiver: Key,
                                                epoch: U64)
    requires Sum(Lamports(meta.delegations)) <= meta.totalDelegated
    ensures ClaimsOf(meta, tips, protocolBps, receiver, epoch).Ok? <==>
      && SplitFees(tips.totalTips, protocolBps, tips.validatorFeeBps).Ok?
      && epoch < U64_MAX
      && (meta.delegations == [] || meta.totalDelegated > 0)
  {
    if SplitFees(tips.totalTips, protocolBps, tips.validatorFeeBps).Ok? && epoch < U64_MAX {
      var split := SplitFees(tips.totalTips, protocolBps, tips.validatorFeeBps).value;
      ClaimsSucceed(meta.delegations, split.remaining, meta.totalDelegated, epoch + 1);
    }
  }

  /** What the fees leave and the delegators' floored shares do not cover. */
  function Undistributed(claims: seq<Claim>, tips: TipMeta): int {
    tips.totalTips - Sum(Amounts(claims))
  }

  lemma {:induction false} FeesThenShares(meta: StakeMeta, tips: TipMeta, protocolBps: U64, receiver: Key, epoch: U64)
    requires ClaimsOf(meta, tips, protocolBps, receiver, epoch).Ok?
    ensures SplitFees(tips.totalTips, protocolBps, tips.validatorFeeBps).Ok?
    ensures var claims := ClaimsOf(meta, tips, protocolBps, receiver, epoch).value;
      var split := SplitFees(tips.totalTips, protocolBps, tips.validatorFeeBps).value;
      && |claims| == |meta.delegations| + 2
      && claims[0] == Claim(receiver, split.protocol) && claims[1] == Claim(meta.node, split.validator)
      && Sum(Amounts(claims)) == split.protocol as nat + split.validator as nat
           + Sum(Shares(split.remaining, Lamports(meta.delegations), meta.totalDelegated))
  {
    var claims := ClaimsOf(meta, tips, protocolBps, receiver, epoch).value;
    var split := SplitFees(tips.totalTips, protocolBps, tips.validatorFeeBps).value;
    ClaimsAreShares(meta.delegations, split.remaining, meta.totalDelegated, epoch + 1);
    var shares := Shares(split.remaining, Lamports(meta.delegations), meta.totalDelegated);
    assert Amounts(claims) == [split.protocol as nat, split.validator as nat] + shares;
    SumConcat([split.protocol as nat, split.validator as nat], shares);
    assert Sum([split.protocol as nat, split.validator as nat]) == split.protocol as nat + split.validator as nat by {
      SumSnoc([split.protocol as nat], split.validator);
      SumSnoc([], split.protocol);
      assert [] + [split.protocol as nat] == [split.protocol as nat];
      assert [split.protocol as nat] + [split.validator as nat] == [split.protocol as nat, split.validator as nat];
    }
  }

  /** One delegator's claim. Up to the target epoch 737 it is the staker who may claim, from then on the
      stake account. */
  lemma {:induction false} DelegatorClaimAt(ds: seq<Delegation>, remaining: U64, totalDelegated: U64,
                                            targetEpoch: U64, i: nat)
    requires DelegatorClaims(ds, remaining, totalDelegated, targetEpoch).Ok? && i < |ds|
    ensures |DelegatorClaims(ds, remaining, totalDelegated, targetEpoch).value| == |ds|
    ensures Share(remaining, ds[i].lamports, totalDelegated) <= U64_MAX
    ensures DelegatorClaims(ds, remaining, totalDelegated, targetEpoch).value[i]
         == Claim(if targetEpoch > 737 then ds[i].stakeAccount else ds[i].staker,
                  Share(remaining, ds[i].lamports, totalDelegated))
    decreases |ds|
  {
    var n := |ds| - 1;
    RewardIsShare(ds[n], remaining, totalDelegated);
    ClaimsAreShares(ds[..n], remaining, totalDelegated, targetEpoch);
    if i < n {
      DelegatorClaimAt(ds[..n], remaining, totalDelegated, targetEpoch, i);
    }
  }

  /** Who may claim what, spelled out: the receiver the protocol's part, the validator its own, and each
      delegator its floored share of the rest. */
  ghost predicate SharesOut(meta: StakeMeta, split: Split, receiver: Key, epoch: U64, claims: seq<Claim>) {
    && |claims| == |meta.delegations| + 2
    && claims[0] == Claim(receiver, split.protocol) && claims[1] == Claim(meta.node, split.validator)
    && forall i :: 0 <= i < |meta.delegations| ==>
       && claims[i + 2].claimant
          == (if epoch >= 737 then meta.delegations[i].stakeAccount else meta.delegations[i].staker)
       && claims[i + 2].amount == Share(split.remaining, meta.delegations[i].lamports, meta.totalDelegated)
  }

  lemma {:induction false} ClaimsAreSpelledOut(meta: StakeMeta, tips: TipMeta, protocolBps: U64, receiver: Key,
                                               epoch: U64)
    requires ClaimsOf(meta, tips, protocolBps, receiver, epoch).Ok?
    ensures SplitFees(tips.totalTips, protocolBps, tips.validatorFeeBps).Ok?
    ensures SharesOut(meta, SplitFees(tips.totalTips, protocolBps, tips.validatorFeeBps).value, receiver, epoch,
                      ClaimsOf(meta, tips, protocolBps, receiver, epoch).value)
  {
    FeesThenShares(meta, tips, protocolBps, receiver, epoch);
    var split := SplitFees(tips.totalTips, protocolBps, tips.validatorFeeBps).value;
    var claims := ClaimsOf(meta, tips, protocolBps, receiver, epoch).value;
    forall i | 0 <= i < |meta.delegations|
      ensures claims[i + 2].claimant
           == (if epoch >= 737 then meta.delegations[i].stakeAccount else meta.delegations[i].staker)
      ensures claims[i + 2].amount == Share(split.remaining, meta.delegations[i].lamports, meta.totalDelegated)
    {
      DelegatorClaimAt(meta.delegations, split.remaining, meta.totalDelegated, epoch + 1, i);
    }
  }

  /** No validator's tree promises more than its tips, as long as its delegations add up to no more
      than the stated total; when they add up to it exactly, less than one lamport per delegation
      stays behind. */
  lemma {:induction false} ClaimsFitTips(meta: StakeMeta, tips: TipMeta, protocolBps: U64, receiver: Key, epoch: U64)
    requires ClaimsOf(meta, tips, protocolBps, receiver, epoch).Ok?
    requires Sum(Lamports(meta.delegations)) <= meta.totalDelegated
    ensures var claims := ClaimsOf(meta, tips, protocolBps, receiver, epoch).value;
      && Undistributed(claims, tips) >= 0
      && (Sum(Lamports(meta.delegations)) == meta.totalDelegated > 0 ==>
           Undistributed(claims, tips) < Sum(Positive(Lamports(meta.delegations))) <= |meta.delegations|)
  {
    FeesThenShares(meta, tips, protocolBps, receiver, epoch);
    SplitConserves(tips.totalTips, protocolBps, tips.validatorFeeBps);
    var split := SplitFees(tips.totalTips, protocolBps, tips.validatorFeeBps).value;
    SharesFit(split.remaining, Lamports(meta.delegations), meta.totalDelegated);
    if Sum(Lamports(meta.delegations)) == meta.totalDelegated && meta.totalDelegated > 0 {
      ShareDust(split.remaining, Lamports(meta.delegations), meta.totalDelegated);
      SumOfFlags(Positive(Lamports(meta.delegations)));
    }
  }

  /** The condition is exact. Nothing checks the stated total, and the floored shares fit into every
      amount that may be left to share if and only if the delegations fit into the total. */
  lemma {:induction false} SharesAlwaysFitExactly(ds: seq<Delegation>, total: U64)
    requires total > 0
    ensures (forall remaining: U64 :: Sum(Shares(remaining, Lamports(ds), total)) <= remaining)
       <==> Sum(Lamports(ds)) <= total
  {
    if Sum(Lamports(ds)) <= total {
      forall remaining: U64 ensures Sum(Shares(remaining, Lamports(ds), total)) <= remaining {
        SharesFit(remaining, Lamports(ds), total);
      }
    } else {
      WholeShares(Lamports(ds), total);
      assert Sum(Shares(total, Lamports(ds), total)) > total;
    }
  }

  /** Without fees, and with tips equal to the stated total, every delegator is promised its own
      delegation. */
  lemma {:induction false} WholeClaims(ds: seq<Delegation>, total: U64, targetEpoch: U64)
    requires total > 0
    ensures DelegatorClaims(ds, total, total, targetEpoch).Ok?
    decreases |ds|
  {
    if ds != [] {
      WholeClaims(ds[..|ds| - 1], total, targetEpoch);
      WholeShare(ds[|ds| - 1].lamports, total);
      RewardIsShare(ds[|ds| - 1], total, total);
    }
  }

  lemma {:induction false} NoFees(tips: U64)
    ensures SplitFees(tips, 0, 0) == Ok(Split(0, 0, tips))
  {
    assert tips * 0 == 0;
  }

  /** So a stated total that is too small always has tips for which the tree promises more than them. */
  lemma {:induction false} UnderstatedTotalOverpays(meta: StakeMeta, receiver: Key, account: Key, epoch: U64)
    requires 0 < meta.totalDelegated < Sum(Lamports(meta.delegations)) && epoch < U64_MAX
    ensures var tips := TipMeta(account, meta.totalDelegated, 0);
      && ClaimsOf(meta, tips, 0, receiver, epoch).Ok?
      && Undistributed(ClaimsOf(meta, tips, 0, receiver, epoch).value, tips)
         == meta.totalDelegated - Sum(Lamports(meta.delegations))
  {
    var tips := TipMeta(account, meta.totalDelegated, 0);
    NoFees(tips.totalTips);
    WholeClaims(meta.delegations, meta.totalDelegated, epoch + 1);
    FeesThenShares(meta, tips, 0, receiver, epoch);
    WholeShares(Lamports(meta.delegations), meta.totalDelegated);
  }

  ghost predicate PromisesAtMostTips(meta: StakeMeta, tips: TipMeta, protocolBps: U64, receiver: Key, epoch: U64) {
    ClaimsOf(meta, tips, protocolBps, receiver, epoch).Ok? ==>
      Undistributed(ClaimsOf(meta, tips, protocolBps, receiver, epoch).value, tips) >= 0
  }

  lemma {:induction false} NoTotalNoShares(meta: StakeMeta, tips: TipMeta, protocolBps: U64, receiver: Key, epoch: U64)
    requires meta.totalDelegated == 0 && ClaimsOf(meta, tips, protocolBps, receiver, epoch).Ok?
    ensures meta.delegations == []
  {
  }

  /** The boundary of the whole apportionment: a validator's tree stays within its tips, whatever they
      and the fees are, if and only if its delegations fit into the stated total, or there is no total
      and so nothing to divide by. */
  lemma {:induction false} ClaimsFitTipsExactly(meta: StakeMeta, receiver: Key, epoch: U64)
    requires epoch < U64_MAX
    ensures (forall tips: TipMeta, protocolBps: U64 :: PromisesAtMostTips(meta, tips, protocolBps, receiver, epoch))
       <==> meta.totalDelegated == 0 || Sum(Lamports(meta.delegations)) <= meta.totalDelegated
  {
    if meta.totalDelegated == 0 || Sum(Lamports(meta.delegations)) <= meta.totalDelegated {
      forall tips: TipMeta, protocolBps: U64 ensures PromisesAtMostTips(meta, tips, protocolBps, receiver, epoch) {
        if ClaimsOf(meta, tips, protocolBps, receiver, epoch).Ok? {
          if meta.totalDelegated == 0 {
            NoTotalNoShares(meta, tips, protocolBps, receiver, epoch);
            assert Lamports(meta.delegations) == [];
          }
          ClaimsFitTips(meta, tips, protocolBps, receiver, epoch);
        }
      }
    } else {
      UnderstatedTotalOverpays(meta, receiver, 0, epoch);
      assert !PromisesAtMostTips(meta, TipMeta(0, meta.totalDelegated, 0), 0, receiver, epoch);
    }
  }

  // ------------------------------------------------------------------
  // The collection
  // ------------------------------------------------------------------

  /** A claim tree can be claimed from: every claim's proof is accepted against the tree's root. */
  ghost predicate Claimable(h: Hasher<Digest>, record: Claim -> Digest, t: ClaimTree) {
    && t.maxNumNodes == |t.claims| == |t.proofs|
    && forall i :: 0 <= i < |t.claims| ==> Verifies(h, t.proofs[i], t.root, h.leaf(record(t.claims[i])))
  }

  lemma {:induction false} TreeIsClaimable(h: Hasher<Digest>, record: Claim -> Digest, tips: TipMeta,
                                           claims: seq<Claim>)
    requires claims != []
    ensures Claimable(h, record, TreeOfClaims(h, record, tips, claims))
  {
    var hashes := ClaimHashes(record, claims);
    var t := TreeOfClaims(h, record, tips, claims);
    forall i | 0 <= i < |claims| ensures Verifies(h, t.proofs[i], t.root, h.leaf(record(claims[i]))) {
      EveryItemVerifies(h, hashes, i);
      assert hashes[i] == record(claims[i]);
    }
  }

  /** A meta without tips adds no tree; one with tips adds exactly its own. */
  ghost predicate TreeFor(h: Hasher<Digest>, record: Claim -> Digest, t: ClaimTree, meta: StakeMeta, protocolBps: U64,
                          receiver: Key, epoch: U64) {
    && meta.tips.Some?
    && ClaimsOf(meta, meta.tips.value, protocolBps, receiver, epoch) == Ok(t.claims)
    && (var split := SplitFees(meta.tips.value.totalTips, protocolBps, meta.tips.value.validatorFeeBps);
        split.Ok? && SharesOut(meta, split.value, receiver, epoch, t.claims))
    && t.account == meta.tips.value.account && t.maxTotalClaim == meta.tips.value.totalTips
    && Claimable(h, record, t)
  }

  ghost predicate TreesFor(h: Hasher<Digest>, record: Claim -> Digest, trees: seq<ClaimTree>, metas: seq<StakeMeta>,
                           protocolBps: U64, receiver: Key, epoch: U64)
    decreases |metas|
  {
    if metas == [] then trees == []
    else if metas[|metas| - 1].tips.None? then
      TreesFor(h, record, trees, metas[..|metas| - 1], protocolBps, receiver, epoch)
    else
      && trees != []
      && TreeFor(h, record, trees[|trees| - 1], metas[|metas| - 1], protocolBps, receiver, epoch)
      && TreesFor(h, record, trees[..|trees| - 1], metas[..|metas| - 1], protocolBps, receiver, epoch)
  }

  lemma {:induction false} OneMoreMeta(h: Hasher<Digest>, record: Claim -> Digest, trees: seq<ClaimTree>,
                                       metas: seq<StakeMeta>,
                                       claims: seq<Claim>, protocolBps: U64, receiver: Key, epoch: U64)
    requires metas != [] && metas[|metas| - 1].tips.Some?
    requires TreesFor(h, record, trees, metas[..|metas| - 1], protocolBps, receiver, epoch)
    requires ClaimsOf(metas[|metas| - 1], metas[|metas| - 1].tips.value, protocolBps, receiver, epoch) == Ok(claims)
    ensures claims != []
    ensures TreesFor(h, record, trees + [TreeOfClaims(h, record, metas[|metas| - 1].tips.value, claims)], metas,
                     protocolBps, receiver, epoch)
  {
    var t := TreeOfClaims(h, record, metas[|metas| - 1].tips.value, claims);
    TreeIsClaimable(h, record, metas[|metas| - 1].tips.value, claims);
    ClaimsAreSpelledOut(metas[|metas| - 1], metas[|metas| - 1].tips.value, protocolBps, receiver, epoch);
    assert (trees + [t])[..|trees|] == trees;
  }

  /** The collection holds one claimable tree per validator with tips, in order. */
  lemma {:induction false} CollectionIsComplete(h: Hasher<Digest>, record: Claim -> Digest, metas: seq<StakeMeta>,
                                                protocolBps: U64, receiver: Key, epoch: U64)
    requires Generate(h, record, metas, protocolBps, receiver, epoch).Ok?
    ensures TreesFor(h, record, Generate(h, record, metas, protocolBps, receiver, epoch).value, metas, protocolBps,
                     receiver, epoch)
    decreases |metas|
  {
    if metas != [] {
      var n := |metas| - 1;
      CollectionIsComplete(h, record, metas[..n], protocolBps, receiver, epoch);
      if metas[n].tips.Some? {
        OneMoreMeta(h, record, Generate(h, record, metas[..n], protocolBps, receiver, epoch).value, metas,
                    ClaimsOf(metas[n], metas[n].tips.value, protocolBps, receiver, epoch).value,
                    protocolBps, receiver, epoch);
      }
    }
  }

  /** It fails exactly when the apportionment of one of them does. */
  lemma {:induction false} CollectionExactly(h: Hasher<Digest>, record: Claim -> Digest, metas: seq<StakeMeta>,
                                             protocolBps: U64, receiver: Key, epoch: U64)
    ensures Generate(h, record, metas, protocolBps, receiver, epoch).Ok? <==>
      forall i :: 0 <= i < |metas| && metas[i].tips.Some? ==>
        ClaimsOf(metas[i], metas[i].tips.value, protocolBps, receiver, epoch).Ok?
    decreases |metas|
  {
    if metas != [] {
      CollectionExactly(h, record, metas[..|metas| - 1], protocolBps, receiver, epoch);
    }
  }
}

/** The loops of the source. */
module GeneratedMerkleTreeLoops {
  import opened Common
  import opened MerkleTreeSpec
  import MerkleTreeLoops
  import opened GeneratedMerkleTreeSpec

  /** Extends the claims by the delegators', stopping at the first error. */
  method ExtendClaims(ds: seq<Delegation>, remaining: U64, totalDelegated: U64, targetEpoch: U64)
    returns (r: Result<seq<Claim>>)
    ensures r == DelegatorClaims(ds, remaining, totalDelegated, targetEpoch)
  {
    var claims: seq<Claim> := [];
    for i := 0 to |ds|
      invariant DelegatorClaims(ds[..i], remaining, totalDelegated, targetEpoch) == Ok(claims)
    {
      assert ds[..i + 1][..i] == ds[..i];
      var amount := RewardOf(ds[i], remaining, totalDelegated);
      if amount.Err? {
        FirstErrorStays(ds, i + 1, remaining, totalDelegated, targetEpoch);
        return Err(amount.error);
      }
      claims := claims + [Claim(ClaimantOf(ds[i], targetEpoch), amount.value)];
    }
    assert ds[..|ds|] == ds;
    return Ok(claims);
  }

  lemma {:induction false} FirstErrorStays(ds: seq<Delegation>, i: nat, remaining: U64, totalDelegated: U64,
                                           targetEpoch: U64)
    requires i <= |ds| && DelegatorClaims(ds[..i], remaining, totalDelegated, targetEpoch).Err?
    ensures DelegatorClaims(ds, remaining, totalDelegated, targetEpoch)
         == DelegatorClaims(ds[..i], remaining, totalDelegated, targetEpoch)
    decreases |ds| - i
  {
    if i == |ds| {
      assert ds[..i] == ds;
    } else {
      assert ds[..i + 1][..i] == ds[..i];
      FirstErrorStays(ds, i + 1, remaining, totalDelegated, targetEpoch);
    }
  }

  /** `vec_from_stake_meta`. */
  method VecFromStakeMeta(meta: StakeMeta, tips: TipMeta, protocolBps: U64, receiver: Key, epoch: U64)
    returns (r: Result<seq<Claim>>)
    ensures r == ClaimsOf(meta, tips, protocolBps, receiver, epoch)
  {
    var split :- SplitFees(tips.totalTips, protocolBps, tips.validatorFeeBps);
    if epoch == U64_MAX {
      return Err(CheckedMath);
    }
    var claims := [Claim(receiver, split.protocol)];
    claims := claims + [Claim(meta.node, split.validator)];
    var rest :- ExtendClaims(meta.delegations, split.remaining, meta.totalDelegated, epoch + 1);
    assert claims == [Claim(receiver, split.protocol), Claim(meta.node, split.validator)];
    return Ok(claims + rest);
  }

  /** The loop that stores one proof per leaf. */
  method CollectProofs(h: Hasher<Digest>, tree: Tree, n: nat, ghost leaves: seq<Digest>)
    returns (proofs: seq<seq<Digest>>)
    requires n == |leaves| && tree == Tree(|leaves|, Levels(h, true, leaves))
    ensures proofs == ProofsOf(h, leaves)
  {
    proofs := [];
    for i := 0 to n
      invariant |proofs| == i && forall j :: 0 <= j < i ==> proofs[j] == ProofOf(h, leaves, j)
    {
      var proof := MerkleTreeLoops.ProofAt(tree, i, h, leaves);
      proofs := proofs + [proof];
    }
  }

  /** Hashes the claims, builds their tree and stores the proofs. */
  method BuildTree(h: Hasher<Digest>, record: Claim -> Digest, tips: TipMeta, claims: seq<Claim>) returns (t: ClaimTree)
    requires claims != []
    ensures t == TreeOfClaims(h, record, tips, claims)
  {
    var hashes := ClaimHashes(record, claims);
    var tree, root := MerkleTreeLoops.Build(h, hashes);
    var proofs := CollectProofs(h, tree, |claims|, Leaves(h, hashes));
    t := ClaimTree(tips.account, claims, proofs, root.value, tips.totalTips, |claims|);
  }

  lemma {:induction false} FirstFailureStays(h: Hasher<Digest>, record: Claim -> Digest, metas: seq<StakeMeta>, i: nat,
                                             protocolBps: U64, receiver: Key, epoch: U64)
    requires i <= |metas| && Generate(h, record, metas[..i], protocolBps, receiver, epoch).Err?
    ensures Generate(h, record, metas, protocolBps, receiver, epoch)
         == Generate(h, record, metas[..i], protocolBps, receiver, epoch)
    decreases |metas| - i
  {
    if i == |metas| {
      assert metas[..i] == metas;
    } else {
      assert metas[..i + 1][..i] == metas[..i];
      FirstFailureStays(h, record, metas, i + 1, protocolBps, receiver, epoch);
    }
  }

  /** `new_from_stake_meta_collection`: one tree per validator with tips, stopping at the first error. */
  method GenerateTrees(h: Hasher<Digest>, record: Claim -> Digest, metas: seq<StakeMeta>, protocolBps: U64,
                       receiver: Key, epoch: U64)
    returns (r: Result<seq<ClaimTree>>)
    ensures r == Generate(h, record, metas, protocolBps, receiver, epoch)
  {
    var trees: seq<ClaimTree> := [];
    for i := 0 to |metas|
      invariant Generate(h, record, metas[..i], protocolBps, receiver, epoch) == Ok(trees)
    {
      assert metas[..i + 1][..i] == metas[..i];
      if metas[i].tips.Some? {
        var claims := VecFromStakeMeta(metas[i], metas[i].tips.value, protocolBps, receiver, epoch);
        if claims.Err? {
          FirstFailureStays(h, record, metas, i + 1, protocolBps, receiver, epoch);
          return Err(claims.error);
        }
        var t := BuildTree(h, record, metas[i].tips.value, claims.value);
        trees := trees + [t];
      }
    }
    assert metas[..|metas|] == metas;
    return Ok(trees);
  }
}
