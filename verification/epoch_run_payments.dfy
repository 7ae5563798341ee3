/** What a routing round pays, from the history of the run alone: by the votes that were accepted, the
    fees that were set, and the stakes that were delegated. */
module EpochRunPayments {
  import opened Common
  import opened Sums
  import opened FlooredShares
  import opened StakeWeight
  import opened FeesSpec
  import opened InstructionsProofs
  import opened EpochRunSpec
  import opened EpochRunInvariants
  import opened EpochRunRewards
  import opened EpochRunClosing
  import opened EpochRunTheorems
  import opened EpochRunHistory
  import S = EpochSnapshotSpec
  import SnapshotProofs = EpochSnapshotProofs
  import B = BallotBoxSpec
  import BallotBoxProofs
  import Refinement = BallotBoxRefinement
  import Consensus
  import Base = BaseRewardRouterSpec
  import BaseProofs = BaseRewardRouterProofs
  import BaseTheorems = BaseRewardRouterTheorems
  import Ncn = NcnRewardRouterSpec
  import NcnProofs = NcnRewardRouterProofs
  import E = EpochStateSpec

  // ------------------------------------------------------------------
  // A round of the base router
  // ------------------------------------------------------------------

  /** An operator whose latest accepted vote is for the winning root. */
  ghost predicate Backs(votes: map<Key, Refinement.Choice>, root: Digest, operator: Key) {
    operator in votes && votes[operator].root == root
  }

  /** What one fee group with a pot pays an operator: the share of its weight among all operators whose
      vote is for the winning root. */
  ghost function ShareOfVote(votes: map<Key, Refinement.Choice>, root: Digest, operator: Key, g: Group,
                             pot: nat): nat
  {
    if !Backs(votes, root, operator) then 0
    else Share(pot, votes[operator].weights.groups[g], Refinement.Support(votes, root, GroupStake(g)))
  }

  /** The part of what came in that a fee of some basis points stands for. */
  function Pot(fees: Fees, bps: nat, incoming: nat): nat {
    Share(incoming, bps, Sum(fees.base) + Sum(fees.ncn))
  }

  /** A round: every operator gets the share of its vote in every group, every base group but the DAO's
      its floored fraction, and nothing of what came in is left over for anybody but the DAO. */
  ghost predicate BaseRound(b: Base.Books, b': Base.Books, votes: map<Key, Refinement.Choice>, root: Digest,
                            fees: Fees, incoming: nat) {
    && (forall k, g: Group :: k != DEFAULT_KEY ==>
         BaseProofs.Owed(b'.routes, k, g)
         == BaseProofs.Owed(b.routes, k, g) + ShareOfVote(votes, root, k, g, Pot(fees, fees.ncn[g], incoming)))
    && (forall g :: 0 < g < FEE_GROUP_COUNT ==>
         b'.base[g] as nat == b.base[g] as nat + Pot(fees, fees.base[g], incoming))
    && b'.pool == 0 && (forall g :: 0 <= g < FEE_GROUP_COUNT ==> b'.ncn[g] == 0)
    && b'.processed as nat == b.processed as nat + incoming
    && b'.processed == Sum(b'.base) + Sum(BaseProofs.RouteTotals(b'.routes))
  }

  /** The winning votes of the box are those of the map. */
  lemma {:induction false} VoteOfBacker(s: B.Box, k: Key, t: nat) returns (i: nat)
    requires BallotBoxProofs.Valid(s) && t < |s.tallies| && s.tallies[t].ballot.isValid
    requires Backs(Refinement.VoteMap(s), s.tallies[t].ballot.root, k)
    ensures i < s.operatorsVoted && s.votes[i].operator == k && s.votes[i].ballotIndex == t
    ensures s.votes[i].weights == Refinement.VoteMap(s)[k].weights
  {
    i := Refinement.SlotOfChoice(s, s.operatorsVoted, k);
    Refinement.RootDecidesSlot(s, i, t);
  }

  lemma {:induction false} BackerOfVote(s: B.Box, i: nat, t: nat)
    requires BallotBoxProofs.Valid(s) && t < |s.tallies| && s.tallies[t].ballot.isValid
    requires i < |s.votes| && s.votes[i].ballotIndex == t
    ensures Backs(Refinement.VoteMap(s), s.tallies[t].ballot.root, s.votes[i].operator)
  {
    assert i < s.operatorsVoted;
    Refinement.ChoiceOfSlot(s, s.operatorsVoted, i);
  }

  /** What a round pays out of the pots of the fee groups. */
  ghost predicate WinnersPaid(b: Base.Books, b': Base.Books, s: B.Box, win: B.BallotTally, pots: seq<nat>) {
    && |pots| == FEE_GROUP_COUNT
    && (forall i, h: Group :: 0 <= i < |s.votes| && s.votes[i].ballotIndex == win.index ==>
         BaseProofs.Owed(b'.routes, s.votes[i].operator, h) == BaseProofs.Owed(b.routes, s.votes[i].operator, h)
           + Share(pots[h], s.votes[i].weights.groups[h], win.weights.groups[h]))
    && (forall k, h: Group :: k != DEFAULT_KEY && !BaseTheorems.WinningVoter(s, win, k) ==>
         BaseProofs.Owed(b'.routes, k, h) == BaseProofs.Owed(b.routes, k, h))
  }

  lemma {:induction false} RoundPaysWinners(b: Base.Books, b': Base.Books, s: B.Box, win: B.BallotTally, fees: Fees,
                                            incoming: nat)
    requires BaseTheorems.RoundCompleted(b, b', s, win, fees, incoming)
    ensures WinnersPaid(b, b', s, win, BaseTheorems.FeeShares(fees.ncn, fees.Total(), incoming))
  {
  }

  lemma {:induction false} PotOfGroup(fees: Fees, incoming: nat, g: Group)
    ensures BaseTheorems.FeeShares(fees.ncn, fees.Total(), incoming)[g] == Pot(fees, fees.ncn[g], incoming)
    ensures BaseTheorems.FeeShares(fees.base, fees.Total(), incoming)[g] == Pot(fees, fees.base[g], incoming)
  {
  }

  /** The weight of the winner in a group is the support of its root. */
  lemma {:induction false} WinnersWeight(s: B.Box, t: nat, g: Group)
    requires BallotBoxProofs.Valid(s) && t < |s.tallies| && s.tallies[t].ballot.isValid
    ensures s.tallies[t].weights.groups[g]
         == Refinement.Support(Refinement.VoteMap(s), s.tallies[t].ballot.root, GroupStake(g))
  {
    Refinement.TalliesAgree(s, t, GroupStake(g));
    assert s.tallies[t].weights.groups[g] == s.tallies[t].Amount(GroupStake(g));
  }

  /** An operator whose vote is for the winner. */
  lemma {:induction false} BackerIsPaid(b: Base.Books, b': Base.Books, s: B.Box, t: nat, pots: seq<nat>, k: Key,
                                        g: Group)
    requires BallotBoxProofs.Valid(s) && t < |s.tallies| && s.tallies[t].ballot.isValid
    requires WinnersPaid(b, b', s, s.tallies[t], pots) && Backs(Refinement.VoteMap(s), s.tallies[t].ballot.root, k)
    ensures BaseProofs.Owed(b'.routes, k, g) == BaseProofs.Owed(b.routes, k, g)
      + ShareOfVote(Refinement.VoteMap(s), s.tallies[t].ballot.root, k, g, pots[g])
  {
    var i := VoteOfBacker(s, k, t);
    WinnersWeight(s, t, g);
  }

  /** Nobody else is paid. */
  lemma {:induction false} OthersAreNotPaid(b: Base.Books, b': Base.Books, s: B.Box, t: nat, pots: seq<nat>, k: Key,
                                            g: Group)
    requires BallotBoxProofs.Valid(s) && t < |s.tallies| && s.tallies[t].ballot.isValid && k != DEFAULT_KEY
    requires WinnersPaid(b, b', s, s.tallies[t], pots) && !Backs(Refinement.VoteMap(s), s.tallies[t].ballot.root, k)
    ensures BaseProofs.Owed(b'.routes, k, g) == BaseProofs.Owed(b.routes, k, g)
  {
    if BaseTheorems.WinningVoter(s, s.tallies[t], k) {
      var i :| 0 <= i < |s.votes| && s.votes[i].ballotIndex == s.tallies[t].index && s.votes[i].operator == k;
      BackerOfVote(s, i, t);
    }
  }

  lemma {:induction false} OperatorIsPaid(b: Base.Books, b': Base.Books, s: B.Box, t: nat, pots: seq<nat>, k: Key,
                                          g: Group)
    requires BallotBoxProofs.Valid(s) && t < |s.tallies| && s.tallies[t].ballot.isValid && k != DEFAULT_KEY
    requires WinnersPaid(b, b', s, s.tallies[t], pots)
    ensures BaseProofs.Owed(b'.routes, k, g) == BaseProofs.Owed(b.routes, k, g)
         + ShareOfVote(Refinement.VoteMap(s), s.tallies[t].ballot.root, k, g, pots[g])
  {
    if Backs(Refinement.VoteMap(s), s.tallies[t].ballot.root, k) {
      BackerIsPaid(b, b', s, t, pots, k, g);
    } else {
      OthersAreNotPaid(b, b', s, t, pots, k, g);
    }
  }

  /** The base groups get their fractions. */
  lemma {:induction false} BaseIsPaid(b: Base.Books, b': Base.Books, s: B.Box, win: B.BallotTally, fees: Fees,
                                      incoming: nat)
    requires BaseTheorems.RoundCompleted(b, b', s, win, fees, incoming) && BaseProofs.Balanced(b')
    ensures forall g :: 0 < g < FEE_GROUP_COUNT ==>
      b'.base[g] as nat == b.base[g] as nat + Pot(fees, fees.base[g], incoming)
    ensures b'.pool == 0 && (forall g :: 0 <= g < FEE_GROUP_COUNT ==> b'.ncn[g] == 0)
    ensures b'.processed == Sum(b'.base) + Sum(BaseProofs.RouteTotals(b'.routes))
  {
    SumZero(b'.ncn);
    forall g: Group ensures BaseTheorems.FeeShares(fees.base, fees.Total(), incoming)[g]
                         == Pot(fees, fees.base[g], incoming) {
      PotOfGroup(fees, incoming, g);
    }
  }

  lemma {:induction false} RoundByVotes(b: Base.Books, b': Base.Books, s: B.Box, t: nat, fees: Fees, incoming: nat)
    requires BallotBoxProofs.Valid(s) && t < |s.tallies| && s.tallies[t].ballot.isValid
    requires BaseTheorems.RoundCompleted(b, b', s, s.tallies[t], fees, incoming)
    requires BaseProofs.Balanced(b') && b'.processed as nat == b.processed as nat + incoming
    ensures BaseRound(b, b', Refinement.VoteMap(s), s.tallies[t].ballot.root, fees, incoming)
  {
    var pots := BaseTheorems.FeeShares(fees.ncn, fees.Total(), incoming);
    RoundPaysWinners(b, b', s, s.tallies[t], fees, incoming);
    forall k, g: Group | k != DEFAULT_KEY
      ensures BaseProofs.Owed(b'.routes, k, g) == BaseProofs.Owed(b.routes, k, g)
           + ShareOfVote(Refinement.VoteMap(s), s.tallies[t].ballot.root, k, g, Pot(fees, fees.ncn[g], incoming))
    {
      OperatorIsPaid(b, b', s, t, pots, k, g);
      PotOfGroup(fees, incoming, g);
    }
    BaseIsPaid(b, b', s, s.tallies[t], fees, incoming);
  }

  /** The round of the router in a world: it goes through, and pays by the box and the snapshot's fees. */
  lemma {:induction false} WorldRound(c: Params, w: World, incoming: nat) returns (b: Base.Books, t: nat)
    requires ParamsOk(c) && Inv(c, w)
    requires w.snapshot.Live? && w.box.Live? && w.base.Live? && VotingOver(c, w.box.data, w.slot)
    requires !w.base.data.StillRouting()
    requires w.baseBalance as nat == c.rent as nat + w.base.data.books.processed as nat + incoming
    requires w.base.data.books.total as nat + incoming <= U64_MAX
    ensures DoRouteBase(c, w, U16_MAX).Ok? && DoRouteBase(c, w, U16_MAX).value.base == Live(Base.Router(b, Base.IDLE))
    ensures BallotBoxProofs.Valid(w.box.data) && t < |w.box.data.tallies|
    ensures w.box.data.tallies[t].ballot.isValid && w.box.data.tallies[t].ballot.root == w.box.data.winning.root
    ensures BaseRound(w.base.data.books, b, Refinement.VoteMap(w.box.data), w.box.data.winning.root,
                      w.snapshot.data.fees, incoming)
  {
    var r, box, fees, total := w.base.data, w.box.data, w.snapshot.data.fees, w.snapshot.data.weights.total;
    WinnerForRouting(c, w);
    UsedRouterOk(c, w);
    BaseTheorems.BoxBacksWinner(box, c.threshold, total);
    t := Consensus.WinnerSlot(box);
    b := BaseTheorems.CompletedRound(r, box, box.tallies[t], fees, c.rent, w.baseBalance, incoming);
    BaseTheorems.RouteBaseSucceeds(r, box, c.threshold, total, fees, c.rent, w.baseBalance, U16_MAX);
    RouteBaseInWorld(c, w, U16_MAX);
    RoundByVotes(r.books, b, box, t, fees, incoming);
  }

  /** The base round of a run. With its accounts at hand and no run under way, one call with the largest
      limit takes in what the receiver got since the last round and pays it out by the votes that were
      accepted and the fees the epoch snapshot was made with: every operator whose latest vote is for the
      winning root gets the floored share of its group weight, in every group, and nobody else anything. */
  lemma {:induction false} BaseRoundAsTold(c: Params, slot: U64, events: seq<Event>, incoming: nat)
    returns (b: Base.Books)
    requires ParamsOk(c) && 0 < slot < E.NO_CONSENSUS
    requires var w := Run(c, Start(slot), events);
      && w.snapshot.Live? && w.box.Live? && w.base.Live? && VotingOver(c, w.box.data, w.slot)
      && !w.base.data.StillRouting()
      && w.baseBalance as nat == c.rent as nat + w.base.data.books.processed as nat + incoming
      && w.base.data.books.total as nat + incoming <= U64_MAX
    ensures var w, h := Run(c, Start(slot), events), HistoryOf(c, Start(slot), events);
      && DoRouteBase(c, w, U16_MAX).Ok? && DoRouteBase(c, w, U16_MAX).value.base == Live(Base.Router(b, Base.IDLE))
      && h.opening.Some?
      && BaseRound(w.base.data.books, b, VotesCast(c, Start(slot), events), w.box.data.winning.root,
                   h.opening.value.fees, incoming)
  {
    StartInv(c, slot);
    RunKeeps(c, Start(slot), events);
    RunIsTold(c, slot, events);
    BoxIsVotesCast(c, slot, events);
    var t;
    b, t := WorldRound(c, Run(c, Start(slot), events), incoming);
  }

  // ------------------------------------------------------------------
  // A round of an operator's router
  // ------------------------------------------------------------------

  /** The weights of the stakes in one fee group. */
  function StakeWeightsIn(stakes: seq<Weighed>, g: Group): (r: seq<nat>)
    ensures |r| == |stakes|
  {
    seq(|stakes|, j requires 0 <= j < |stakes| => stakes[j].Weight(g))
  }

  /** What the shares of the stakes from `j` on bring a vault. */
  function ToVault(stakes: seq<Weighed>, shares: seq<nat>, vault: Key, j: nat): nat
    requires |shares| == |stakes|
    decreases |stakes| - j
  {
    if j >= |stakes| then 0
    else (if stakes[j].vault == vault then shares[j] else 0) + ToVault(stakes, shares, vault, j + 1)
  }

  /** A round: the operator takes the fee its snapshot was made with, every vault the floored shares of
      its stakes in the group, and the operator what flooring leaves. */
  ghost predicate NcnRound(b: Ncn.Books, b': Ncn.Books, o: Operated, g: Group, incoming: nat) {
    && o.Opened?
    && var fee := if o.isActive then Share(incoming, o.feeBps, 10_000) else 0;
    && fee <= incoming
    && var weights := StakeWeightsIn(o.stakes, g);
    && var shares := Shares(incoming - fee, weights, Sum(weights));
    && Sum(shares) <= incoming - fee
    && b'.pool == 0
    && b'.operatorRewards as int == b.operatorRewards + fee + (incoming - fee - Sum(shares))
    && forall k :: k != DEFAULT_KEY ==>
       NcnProofs.Owed(b'.routes, k) == NcnProofs.Owed(b.routes, k) + ToVault(o.stakes, shares, k, 0)
  }

  /** The weights of a snapshot are those of its stakes, and zeroes. */
  lemma {:induction false} WeightsOfStakes(o: S.OperatorSnapshot, stakes: seq<Weighed>, g: Group)
    requires SnapshotProofs.OperatorOk(o) && OperatorTold(Live(o), Opened(o.isActive, o.feeBps, stakes))
    ensures o.registered == |stakes| <= MAX_VAULTS
    ensures NcnProofs.VaultWeights(o, g)[..|stakes|] == StakeWeightsIn(stakes, g)
    ensures Sum(NcnProofs.VaultWeights(o, g)[|stakes|..]) == 0
    ensures Sum(StakeWeightsIn(stakes, g)) == o.weights.groups[g]
  {
    var all, n := NcnProofs.VaultWeights(o, g), |stakes|;
    forall j | 0 <= j < n ensures all[..n][j] == StakeWeightsIn(stakes, g)[j] {
      assert Records(o.delegations[j], stakes[j]);
    }
    assert all == all[..n] + all[n..];
    SumZero(all[n..]);
    SumConcat(all[..n], all[n..]);
    NcnProofs.WeightsBacked(o, g);
  }

  /** So are its shares. */
  lemma {:induction false} SharesOfStakes(o: S.OperatorSnapshot, stakes: seq<Weighed>, g: Group, rewards: nat)
    requires SnapshotProofs.OperatorOk(o) && OperatorTold(Live(o), Opened(o.isActive, o.feeBps, stakes))
    ensures var weights := StakeWeightsIn(stakes, g);
      var shares, all := Shares(rewards, weights, Sum(weights)), NcnProofs.VaultShares(o, g, rewards);
      && |stakes| == o.registered <= MAX_VAULTS
      && all[..|stakes|] == shares && Sum(shares) == Sum(all)
      && (forall j :: |stakes| <= j < MAX_VAULTS ==> all[j] == 0)
  {
    var weights, n := StakeWeightsIn(stakes, g), |stakes|;
    var shares, all := Shares(rewards, weights, Sum(weights)), NcnProofs.VaultShares(o, g, rewards);
    var slots := NcnProofs.VaultWeights(o, g);
    WeightsOfStakes(o, stakes, g);
    SumZero(slots[n..]);
    forall j | 0 <= j < n ensures all[..n][j] == shares[j] {
      assert slots[j] == slots[..n][j];
    }
    forall j | n <= j < MAX_VAULTS ensures all[j] == 0 {
      assert slots[j] == slots[n..][j - n];
      assert rewards * 0 == 0;
    }
    assert all == all[..n] + all[n..];
    SumZero(all[n..]);
    SumConcat(all[..n], all[n..]);
  }

  lemma {:induction false} PaidIsToVault(o: S.OperatorSnapshot, stakes: seq<Weighed>, shares: seq<nat>, all: seq<nat>,
                                         vault: Key, j: nat)
    requires OperatorTold(Live(o), Opened(o.isActive, o.feeBps, stakes)) && j <= MAX_VAULTS
    requires |shares| == |stakes| <= MAX_VAULTS == |all| && all[..|stakes|] == shares
    requires forall i :: |stakes| <= i < MAX_VAULTS ==> all[i] == 0
    ensures NcnProofs.PaidFrom(o, all, vault, j) == ToVault(stakes, shares, vault, j)
    decreases MAX_VAULTS - j
  {
    if j < MAX_VAULTS {
      PaidIsToVault(o, stakes, shares, all, vault, j + 1);
      if j < |stakes| {
        assert Records(o.delegations[j], stakes[j]) && shares[j] == all[..|stakes|][j];
      }
    }
  }

  /** The fee an operator was told to take is the one in its snapshot. */
  lemma {:induction false} FeeOfOperator(o: S.OperatorSnapshot, told: Operated, incoming: nat)
    requires OperatorTold(Live(o), told) && told.Opened?
    ensures Share(incoming, o.feeBps, MAX_BPS) == if told.isActive then Share(incoming, told.feeBps, 10_000) else 0
  {
    assert incoming * 0 == 0;
  }

  /** What the vaults get. */
  lemma {:induction false} VaultsArePaid(b: Ncn.Books, b': Ncn.Books, o: S.OperatorSnapshot, stakes: seq<Weighed>,
                                         g: Group, rewards: nat)
    requires SnapshotProofs.OperatorOk(o) && OperatorTold(Live(o), Opened(o.isActive, o.feeBps, stakes))
    requires var all := NcnProofs.VaultShares(o, g, rewards);
      forall k :: k != DEFAULT_KEY ==>
        NcnProofs.Owed(b'.routes, k) == NcnProofs.Owed(b.routes, k) + NcnProofs.PaidFrom(o, all, k, 0)
    ensures var weights := StakeWeightsIn(stakes, g);
      var shares := Shares(rewards, weights, Sum(weights));
      && Sum(shares) == Sum(NcnProofs.VaultShares(o, g, rewards))
      && forall k :: k != DEFAULT_KEY ==>
         NcnProofs.Owed(b'.routes, k) == NcnProofs.Owed(b.routes, k) + ToVault(stakes, shares, k, 0)
  {
    var weights := StakeWeightsIn(stakes, g);
    SharesOfStakes(o, stakes, g, rewards);
    forall k ensures NcnProofs.PaidFrom(o, NcnProofs.VaultShares(o, g, rewards), k, 0)
                  == ToVault(stakes, Shares(rewards, weights, Sum(weights)), k, 0) {
      PaidIsToVault(o, stakes, Shares(rewards, weights, Sum(weights)), NcnProofs.VaultShares(o, g, rewards), k, 0);
    }
  }

  /** A completed round, by the stakes. */
  lemma {:induction false} RoundByStakes(b: Ncn.Books, b': Ncn.Books, o: S.OperatorSnapshot, told: Operated, g: Group,
                                         incoming: nat)
    requires SnapshotProofs.OperatorOk(o) && OperatorTold(Live(o), told) && told.Opened?
    requires NcnProofs.RoundCompleted(b, b', o, g, incoming)
    ensures NcnRound(b, b', told, g, incoming)
  {
    FeeOfOperator(o, told, incoming);
    VaultsArePaid(b, b', o, told.stakes, g, incoming - Share(incoming, o.feeBps, MAX_BPS));
  }

  lemma {:induction false} WorldNcnRound(c: Params, w: World, k: E.RouterIndex, incoming: nat) returns (b: Ncn.Books)
    requires ParamsOk(c) && Inv(c, w)
    requires w.operators[E.OperatorOf(k)].Live? && w.ncn[k].Live? && !w.ncn[k].data.StillRouting()
    requires w.ncnBalances[k] as nat == c.rent as nat + w.ncn[k].data.books.processed as nat + incoming
    requires w.ncn[k].data.books.total as nat + incoming <= U64_MAX
    ensures DoRouteNcn(c, w, k, U16_MAX).Ok?
    ensures DoRouteNcn(c, w, k, U16_MAX).value.ncn[k] == Live(Ncn.Router(b, Ncn.IDLE))
    ensures SnapshotProofs.OperatorOk(w.operators[E.OperatorOf(k)].data)
    ensures NcnProofs.RoundCompleted(w.ncn[k].data.books, b, w.operators[E.OperatorOf(k)].data, E.GroupOf(k), incoming)
  {
    var i := E.OperatorOf(k);
    RouterOkAt(c, w, k);
    assert OperatorAccountOk(c, i, w.operators[i], w.state.operators[i], OperatorCount(w.snapshot),
                             VaultCount(w.snapshot));
    b := NcnProofs.CompletedRound(w.ncn[k].data, w.operators[i].data, E.GroupOf(k), c.rent, w.ncnBalances[k], incoming);
  }

  /** A round of an operator's router in a run. With its accounts at hand and no run under way, one call
      with the largest limit takes in what the receiver got since the last round; the operator takes
      the fee of the event its snapshot was made by, none if it was inactive; and the vaults get the
      floored shares of the stakes that were delegated to it. */
  lemma {:induction false} NcnRoundAsTold(c: Params, slot: U64, events: seq<Event>, k: E.RouterIndex, incoming: nat)
    returns (b: Ncn.Books)
    requires ParamsOk(c) && 0 < slot < E.NO_CONSENSUS
    requires var w := Run(c, Start(slot), events);
      && w.operators[E.OperatorOf(k)].Live? && w.ncn[k].Live? && !w.ncn[k].data.StillRouting()
      && w.ncnBalances[k] as nat == c.rent as nat + w.ncn[k].data.books.processed as nat + incoming
      && w.ncn[k].data.books.total as nat + incoming <= U64_MAX
    ensures var w, h := Run(c, Start(slot), events), HistoryOf(c, Start(slot), events);
      && DoRouteNcn(c, w, k, U16_MAX).Ok?
      && DoRouteNcn(c, w, k, U16_MAX).value.ncn[k] == Live(Ncn.Router(b, Ncn.IDLE))
      && NcnRound(w.ncn[k].data.books, b, h.operators[E.OperatorOf(k)], E.GroupOf(k), incoming)
  {
    var w, h, i := Run(c, Start(slot), events), HistoryOf(c, Start(slot), events), E.OperatorOf(k);
    StartInv(c, slot);
    RunKeeps(c, Start(slot), events);
    RunIsTold(c, slot, events);
    b := WorldNcnRound(c, w, k, incoming);
    assert OperatorTold(w.operators[i], h.operators[i]);
    RoundByStakes(w.ncn[k].data.books, b, w.operators[i].data, h.operators[i], E.GroupOf(k), incoming);
  }
}
