/** The base routing instruction as a whole: incoming lamports, the fee split, and the votes. */
module BaseRewardRouterTheorems {
  import opened Common
  import opened Sums
  import opened FlooredShares
  import opened StakeWeight
  import opened BallotBoxSpec
  import opened BallotBoxProofs
  import opened Consensus
  import opened FeesSpec
  import opened BaseRewardRouterSpec
  import opened BaseRewardRouterChunks
  import opened BaseRewardRouterProofs

  // ------------------------------------------------------------------
  // The fee split
  // ------------------------------------------------------------------

  function FeeShares(fees: FeeTable, total: nat, rewards: nat): (r: seq<nat>)
    ensures |r| == FEE_GROUP_COUNT
  {
    Shares(rewards, fees, total)
  }

  /** All fee shares together fit into what is split. */
  lemma {:induction false} FeeSharesFit(fees: Fees, rewards: nat)
    ensures Sum(FeeShares(fees.base, fees.Total(), rewards)) + Sum(FeeShares(fees.ncn, fees.Total(), rewards))
         <= rewards
  {
    SumConcat(fees.base, fees.ncn);
    SharesFit(rewards, fees.base + fees.ncn, fees.Total());
    assert Shares(rewards, fees.base + fees.ncn, fees.Total())
        == FeeShares(fees.base, fees.Total(), rewards) + FeeShares(fees.ncn, fees.Total(), rewards);
    SumConcat(FeeShares(fees.base, fees.Total(), rewards), FeeShares(fees.ncn, fees.Total(), rewards));
  }

  lemma {:induction false} FeeShareIsChecked(fees: FeeTable, total: nat, rewards: U64, g: Group)
    requires Sum(fees) <= total && Sum(FeeShares(fees, total, rewards)) <= rewards
    ensures CheckedShare(rewards, fees[g], total) == Ok(FeeShares(fees, total, rewards)[g])
  {
    SumAtLeast(fees, g);
    SumAtLeast(FeeShares(fees, total, rewards), g);
    CheckedShareIsShare(rewards, fees[g], total);
  }

  /** `amounts` with the entries from `g` on raised by `shares`. */
  ghost predicate Raised(amounts: Amounts, amounts': Amounts, shares: seq<nat>, g: nat) {
    && |shares| == FEE_GROUP_COUNT
    && forall h :: 0 <= h < FEE_GROUP_COUNT ==>
       amounts'[h] as nat == amounts[h] as nat + if h >= g then shares[h] else 0
  }

  /** Moving an amount from the pool into a bucket. */
  lemma {:induction false} PoolToBase(b: Books, g: Group, amount: U64)
    requires Balanced(b) && b.pool + b.processed <= U64_MAX && amount <= b.pool
    ensures FromPool(b, amount).Ok? && ToBase(FromPool(b, amount).value, g, amount).Ok?
    ensures var b' := ToBase(FromPool(b, amount).value, g, amount).value;
      && Balanced(b')
      && b' == b.(pool := b.pool - amount, processed := b.processed + amount, base := b.base[g := b.base[g] + amount])
  {
    SumAtLeast(b.base, g);
    SumUpdate(b.base, g, b.base[g] + amount);
  }

  lemma {:induction false} PoolToNcn(b: Books, g: Group, amount: U64)
    requires Balanced(b) && b.pool + b.processed <= U64_MAX && amount <= b.pool
    ensures FromPool(b, amount).Ok? && ToNcn(FromPool(b, amount).value, g, amount).Ok?
    ensures var b' := ToNcn(FromPool(b, amount).value, g, amount).value;
      && Balanced(b')
      && b' == b.(pool := b.pool - amount, processed := b.processed + amount, ncn := b.ncn[g := b.ncn[g] + amount])
  {
    SumAtLeast(b.ncn, g);
    SumUpdate(b.ncn, g, b.ncn[g] + amount);
  }

  /** The base part of the split: never fails, and moves exactly the floored fractions. */
  lemma {:induction false} SplitBaseSucceeds(b: Books, fees: Fees, rewards: U64, g: nat)
    requires g <= FEE_GROUP_COUNT && Balanced(b) && b.pool + b.processed <= U64_MAX
    requires b.pool + Sum(FeeShares(fees.base, fees.Total(), rewards)[..g]) == rewards
    ensures SplitBase(b, fees, rewards, g).Ok?
    ensures var b' := SplitBase(b, fees, rewards, g).value;
      var shares := FeeShares(fees.base, fees.Total(), rewards);
      && b' == b.(pool := b'.pool, processed := b'.processed, base := b'.base)
      && Balanced(b')
      && b'.pool + Sum(shares) == rewards
      && b'.pool + b'.processed == b.pool + b.processed
      && Raised(b.base, b'.base, shares, g)
    decreases FEE_GROUP_COUNT - g
  {
    var shares := FeeShares(fees.base, fees.Total(), rewards);
    if g == FEE_GROUP_COUNT {
      assert shares[..g] == shares;
    } else {
      FeeSharesFit(fees, rewards);
      FeeShareIsChecked(fees.base, fees.Total(), rewards, g);
      SumPrefix(shares, g);
      SumOfPrefix(shares, g + 1);
      PoolToBase(b, g, shares[g]);
      var b2 := ToBase(FromPool(b, shares[g]).value, g, shares[g]).value;
      SplitBaseSucceeds(b2, fees, rewards, g + 1);
    }
  }

  lemma {:induction false} SplitNcnSucceeds(b: Books, fees: Fees, rewards: U64, g: nat)
    requires g <= FEE_GROUP_COUNT && Balanced(b) && b.pool + b.processed <= U64_MAX
    requires b.pool + Sum(FeeShares(fees.base, fees.Total(), rewards))
                    + Sum(FeeShares(fees.ncn, fees.Total(), rewards)[..g]) == rewards
    ensures SplitNcn(b, fees, rewards, g).Ok?
    ensures var b' := SplitNcn(b, fees, rewards, g).value;
      var shares := FeeShares(fees.ncn, fees.Total(), rewards);
      && b' == b.(pool := b'.pool, processed := b'.processed, ncn := b'.ncn)
      && Balanced(b')
      && b'.pool + Sum(FeeShares(fees.base, fees.Total(), rewards)) + Sum(shares) == rewards
      && b'.pool + b'.processed == b.pool + b.processed
      && Raised(b.ncn, b'.ncn, shares, g)
    decreases FEE_GROUP_COUNT - g
  {
    var shares := FeeShares(fees.ncn, fees.Total(), rewards);
    if g == FEE_GROUP_COUNT {
      assert shares[..g] == shares;
    } else {
      FeeSharesFit(fees, rewards);
      FeeShareIsChecked(fees.ncn, fees.Total(), rewards, g);
      SumPrefix(shares, g);
      SumOfPrefix(shares, g + 1);
      PoolToNcn(b, g, shares[g]);
      var b2 := ToNcn(FromPool(b, shares[g]).value, g, shares[g]).value;
      SplitNcnSucceeds(b2, fees, rewards, g + 1);
    }
  }

  /** What the fee split leaves for the DAO on top of its own fraction. */
  function SplitRemainder(fees: Fees, rewards: nat): int {
    rewards - Sum(FeeShares(fees.base, fees.Total(), rewards)) - Sum(FeeShares(fees.ncn, fees.Total(), rewards))
  }

  /** The split empties the pool into the buckets: floored fractions, the remainder to the DAO. */
  ghost predicate PoolSplit(b: Books, b': Books, fees: Fees) {
    && b' == b.(pool := 0, processed := b'.processed, base := b'.base, ncn := b'.ncn)
    && b'.processed as nat == b.processed as nat + b.pool as nat
    && Raised(b.ncn, b'.ncn, FeeShares(fees.ncn, fees.Total(), b.pool), 0)
    && (forall h :: 0 < h < FEE_GROUP_COUNT ==>
         b'.base[h] as nat == b.base[h] as nat + FeeShares(fees.base, fees.Total(), b.pool)[h])
    && b'.base[DAO] as int
       == b.base[DAO] as int + FeeShares(fees.base, fees.Total(), b.pool)[DAO] + SplitRemainder(fees, b.pool)
  }

  lemma {:induction false} RouteRewardPoolSucceeds(b: Books, fees: Fees)
    requires Balanced(b) && b.pool + b.processed <= U64_MAX
    ensures RouteRewardPool(b, fees).Ok?
    ensures Balanced(RouteRewardPool(b, fees).value)
    ensures PoolSplit(b, RouteRewardPool(b, fees).value, fees)
  {
    assert FeeShares(fees.base, fees.Total(), b.pool)[..0] == [];
    assert FeeShares(fees.ncn, fees.Total(), b.pool)[..0] == [];
    SplitBaseSucceeds(b, fees, b.pool, 0);
    var b1 := SplitBase(b, fees, b.pool, 0).value;
    SplitNcnSucceeds(b1, fees, b.pool, 0);
    LeftoverToDao(b, b1, SplitNcn(b1, fees, b.pool, 0).value, fees);
  }

  lemma {:induction false} LeftoverToDao(b: Books, b1: Books, b2: Books, fees: Fees)
    requires b.pool + b.processed <= U64_MAX
    requires b1 == b.(pool := b1.pool, processed := b1.processed, base := b1.base)
    requires b2 == b1.(pool := b2.pool, processed := b2.processed, ncn := b2.ncn)
    requires b2.pool + b2.processed == b1.pool + b1.processed == b.pool + b.processed
    requires Balanced(b2)
    requires Raised(b.base, b1.base, FeeShares(fees.base, fees.Total(), b.pool), 0)
    requires Raised(b.ncn, b2.ncn, FeeShares(fees.ncn, fees.Total(), b.pool), 0)
    requires b2.pool + Sum(FeeShares(fees.base, fees.Total(), b.pool)) + Sum(FeeShares(fees.ncn, fees.Total(), b.pool))
         == b.pool
    ensures FromPool(b2, b2.pool).Ok? && ToBase(FromPool(b2, b2.pool).value, DAO, b2.pool).Ok?
    ensures var b' := ToBase(FromPool(b2, b2.pool).value, DAO, b2.pool).value; Balanced(b') && PoolSplit(b, b', fees)
  {
    PoolToBase(b2, DAO, b2.pool);
  }

  // ------------------------------------------------------------------
  // The instruction
  // ------------------------------------------------------------------

  /** What the ballot box guarantees the router once a winner is declared. */
  lemma {:induction false} BoxBacksWinner(box: Box, th: Threshold, total: nat)
    requires Valid(box) && WinnerOk(box, th, total) && box.IsConsensusReached()
    ensures GetWinningTally(box).Ok?
    ensures var win := GetWinningTally(box).value;
      Backed(box.votes, win) && NamedVoters(box.votes) && win.index < MAX_OPERATORS
  {
    var t := WinnerSlot(box);
    var win := GetWinningTally(box).value;
    forall g: Group
      ensures Sum(GroupWeightsOf(box.votes, win, g)) == win.weights.groups[g]
    {
      assert box.tallies[t].Amount(GroupStake(g))
          == Backing(box.votes, t, GroupStake(g)) + Contribution(EMPTY_VOTE, t, GroupStake(g));
    }
  }

  /** The state of the router between instructions. The pool is always routed on in the same
      instruction that fills it, so it is empty; an idle router has nothing left in its groups; an
      interrupted one can go on where it stopped. */
  ghost predicate RouterOk(r: Router, box: Box) {
    && Balanced(r.books) && RoutesOk(r.books.routes, Voters(box.votes))
    && r.books.pool == 0 && r.books.processed <= r.books.total
    && (!r.StillRouting() ==> r.cursor == IDLE && forall h :: 0 <= h < FEE_GROUP_COUNT ==> r.books.ncn[h] == 0)
    && (r.StillRouting() ==>
         && GetWinningTally(box).Ok?
         && r.cursor.group < FEE_GROUP_COUNT && r.cursor.rewards > 0
         && CanRoute(r.books, box.votes, GetWinningTally(box).value, r.cursor.group, r.cursor.vote, r.cursor.rewards))
  }

  lemma {:induction false} NewRouterOk(box: Box)
    ensures RouterOk(NEW_ROUTER, box)
  {
    SumZero(NO_AMOUNTS);
    SumZero(RouteTotals(NEW_BOOKS.routes));
  }

  /** `route_base_rewards` on the router: new lamports only enter while no run is under way. */
  function RouteBase(r: Router, box: Box, fees: Fees, rent: U64, balance: U64, maxIterations: U16): Result<Router> {
    var b :- if r.StillRouting() then Ok(r.books)
             else (var b1 :- RouteIncoming(r.books, rent, balance); RouteRewardPool(b1, fees));
    RouteNcnFeeGroupRewards(r.(books := b), box, maxIterations)
  }

  /** The first half of a fresh instruction: what came in enters the pool and is split. */
  lemma {:induction false} IncomingIsSplit(b: Books, fees: Fees, rent: U64, balance: U64) returns (b1: Books, b2: Books)
    requires Balanced(b) && b.pool == 0 && b.processed <= b.total
    requires rent + b.processed <= balance
    requires b.total + (balance - b.processed - rent) <= U64_MAX
    ensures RouteIncoming(b, rent, balance) == Ok(b1) && RouteRewardPool(b1, fees) == Ok(b2)
    ensures b1 == b.(total := b1.total, pool := b1.pool)
    ensures b1.pool as int == balance - b.processed - rent && b1.total as int == b.total + b1.pool
    ensures Balanced(b2) && PoolSplit(b1, b2, fees)
  {
    b1 := RouteIncoming(b, rent, balance).value;
    RouteRewardPoolSucceeds(b1, fees);
    b2 := RouteRewardPool(b1, fees).value;
  }

  /** One call from a point it can be resumed at never fails. */
  lemma {:induction false} RouteNcnSucceeds(r: Router, box: Box, win: BallotTally, maxIterations: U16)
    requires GetWinningTally(box) == Ok(win)
    requires Backed(box.votes, win) && NamedVoters(box.votes) && win.index < MAX_OPERATORS
    requires r.StillRouting() ==> r.cursor.group < FEE_GROUP_COUNT && r.cursor.rewards > 0
    requires var (g, v, saved) := ResumePoint(r); CanRoute(r.books, box.votes, win, g, v, saved)
    requires r.books.pool == 0 && r.books.processed <= r.books.total
    ensures RouteNcnFeeGroupRewards(r, box, maxIterations).Ok?
    ensures RouterOk(RouteNcnFeeGroupRewards(r, box, maxIterations).value, box)
    ensures var b' := RouteNcnFeeGroupRewards(r, box, maxIterations).value.books;
      b'.total == r.books.total && b'.processed == r.books.processed
  {
    var (g, v, saved) := ResumePoint(r);
    WorkBound(r.books, win, box.votes, g, v, saved);
    RouteGroupsSucceeds(r.books, box.votes, win, g, v, saved, 0, AtLeastOne(maxIterations));
    RouteGroupsIsDrain(r.books, win, box.votes, g, v, saved, 0, AtLeastOne(maxIterations));
  }

  /** Routing never gets stuck. With a declared winner and a receiver that covers rent and the
      rewards in transit, the instruction succeeds unless the lamports ever received overflow 64
      bits, and leaves the router in good order. */
  lemma {:induction false} RouteBaseSucceeds(r: Router, box: Box, th: Threshold, total: nat, fees: Fees,
                                             rent: U64, balance: U64, maxIterations: U16)
    requires Valid(box) && WinnerOk(box, th, total) && box.IsConsensusReached()
    requires RouterOk(r, box)
    requires balance >= rent + r.books.processed
    ensures RouteBase(r, box, fees, rent, balance, maxIterations).Ok?
       <==> r.StillRouting() || r.books.total + (balance - r.books.processed - rent) <= U64_MAX
    ensures RouteBase(r, box, fees, rent, balance, maxIterations).Ok? ==>
      var r' := RouteBase(r, box, fees, rent, balance, maxIterations).value;
      var incoming := if r.StillRouting() then 0 else balance - r.books.processed - rent;
      && RouterOk(r', box)
      && r'.books.total as int == r.books.total + incoming
      && r'.books.processed as int == r.books.processed + incoming
  {
    BoxBacksWinner(box, th, total);
    var win := GetWinningTally(box).value;
    if r.StillRouting() {
      RouteNcnSucceeds(r, box, win, maxIterations);
    } else {
      var incoming := balance - r.books.processed - rent;
      if r.books.total + incoming <= U64_MAX {
        var b1, b2 := IncomingIsSplit(r.books, fees, rent, balance);
        RouteNcnSucceeds(r.(books := b2), box, win, maxIterations);
      }
    }
  }

  // ------------------------------------------------------------------
  // A completed round
  // ------------------------------------------------------------------

  lemma {:induction false} OneVotePerOperator(votes: VoteTable, voted: nat, i: nat, j: nat)
    requires VotesOk(votes, voted) && i < voted && j < |votes|
    ensures votes[i].operator == votes[j].operator <==> i == j
  {
  }

  lemma {:induction false} ShareOfVote(votes: VoteTable, voted: nat, win: BallotTally, g: Group, rewards: nat, i: nat,
                                       v: nat)
    requires VotesOk(votes, voted) && v <= |votes|
    requires i < |votes| && votes[i].ballotIndex == win.index < MAX_OPERATORS
    ensures PaidFrom(votes, VoteShares(votes, win, g, rewards), votes[i].operator, v)
         == if v <= i then Share(rewards, votes[i].weights.groups[g], win.weights.groups[g]) else 0
    decreases |votes| - v
  {
    var shares := VoteShares(votes, win, g, rewards);
    assert i < voted;
    if v < |votes| {
      ShareOfVote(votes, voted, win, g, rewards, i, v + 1);
      OneVotePerOperator(votes, voted, i, v);
      assert shares[i] == Share(rewards, votes[i].weights.groups[g], win.weights.groups[g]);
    }
  }

  ghost predicate WinningVoter(box: Box, win: BallotTally, k: Key) {
    exists i :: 0 <= i < |box.votes| && box.votes[i].ballotIndex == win.index && box.votes[i].operator == k
  }

  /** A routing round carried to its end: each operator with a winning vote was paid exactly the
      floored share of its group weight in what each group got from the fee split, nobody else was
      paid anything, and the DAO got its fee share, the remainder of the split and the dust. */
  ghost predicate RoundCompleted(b: Books, b': Books, box: Box, win: BallotTally, fees: Fees, incoming: nat) {
    var forGroups := FeeShares(fees.ncn, fees.Total(), incoming);
    var forBase := FeeShares(fees.base, fees.Total(), incoming);
    && b'.pool == 0
    && (forall h :: 0 <= h < FEE_GROUP_COUNT ==> b'.ncn[h] == 0)
    && (forall i, h: Group :: 0 <= i < |box.votes| && box.votes[i].ballotIndex == win.index ==>
         Owed(b'.routes, box.votes[i].operator, h) == Owed(b.routes, box.votes[i].operator, h)
           + Share(forGroups[h], box.votes[i].weights.groups[h], win.weights.groups[h]))
    && (forall k, h: Group :: k != DEFAULT_KEY && !WinningVoter(box, win, k) ==>
         Owed(b'.routes, k, h) == Owed(b.routes, k, h))
    && (forall h :: 0 < h < FEE_GROUP_COUNT ==> b'.base[h] as nat == b.base[h] as nat + forBase[h])
    && b'.base[DAO] as int
       == b.base[DAO] as int + forBase[DAO] + SplitRemainder(fees, incoming) + TotalDust(box.votes, win, forGroups, 0)
  }

  /** Split, then drain. */
  lemma {:induction false} SplitAndDrain(b: Books, b1: Books, b2: Books, b3: Books, box: Box, win: BallotTally,
                                         fees: Fees)
    requires VotesOk(box.votes, box.operatorsVoted) && win.index < MAX_OPERATORS
    requires b1 == b.(total := b1.total, pool := b1.pool)
    requires forall h :: 0 <= h < FEE_GROUP_COUNT ==> b.ncn[h] == 0
    requires PoolSplit(b1, b2, fees) && GroupsPaid(b2, b3, box.votes, win, 0)
    ensures RoundCompleted(b, b3, box, win, fees, b1.pool)
  {
    PaidRound(b2, b3, box, win);
    DustIsTotal(b2, box.votes, win, 0, FeeShares(fees.ncn, fees.Total(), b1.pool));
  }

  /** From a fresh start, one call with the largest limit does all the work there is. */
  lemma {:induction false} LargestCallDrains(r: Router, box: Box, win: BallotTally) returns (b: Books)
    requires GetWinningTally(box) == Ok(win)
    requires Backed(box.votes, win) && NamedVoters(box.votes) && win.index < MAX_OPERATORS
    requires !r.StillRouting() && Balanced(r.books) && RoutesOk(r.books.routes, Voters(box.votes))
    ensures RouteNcnFeeGroupRewards(r, box, U16_MAX) == Ok(Router(b, IDLE))
    ensures GroupsPaid(r.books, b, box.votes, win, 0)
  {
    DrainGroupsPays(r.books, box.votes, win, 0);
    b := DrainGroups(r.books, win, box.votes, 0, 0, 0).value;
    WorkBound(r.books, win, box.votes, 0, 0, 0);
    RouteGroupsIsDrain(r.books, win, box.votes, 0, 0, 0, 0, U16_MAX);
  }

  /** Exact shares. A round routed to its end, in however many calls, is a completed round on what
      came in since the last one. */
  lemma {:induction false} CompletedRound(r: Router, box: Box, win: BallotTally, fees: Fees, rent: U64, balance: U64,
                                          incoming: nat)
    returns (b: Books)
    requires GetWinningTally(box) == Ok(win) && VotesOk(box.votes, box.operatorsVoted)
    requires Backed(box.votes, win) && NamedVoters(box.votes) && win.index < MAX_OPERATORS
    requires RouterOk(r, box) && !r.StillRouting()
    requires balance == rent + r.books.processed + incoming
    requires r.books.total + incoming <= U64_MAX
    ensures RouteBase(r, box, fees, rent, balance, U16_MAX) == Ok(Router(b, IDLE))
    ensures RoundCompleted(r.books, b, box, win, fees, incoming)
  {
    var b1, b2 := IncomingIsSplit(r.books, fees, rent, balance);
    b := LargestCallDrains(r.(books := b2), box, win);
    assert RouteBase(r, box, fees, rent, balance, U16_MAX) == RouteNcnFeeGroupRewards(r.(books := b2), box, U16_MAX);
    SplitAndDrain(r.books, b1, b2, b, box, win, fees);
    assert b1.pool == incoming;
  }

  /** The same round as it happens on chain: the first instruction takes in the new lamports, the
      following ones only resume. */
  function BaseRound(r: Router, box: Box, fees: Fees, rent: U64, balance: U64, limits: seq<U16>): Result<Router>
    requires limits != []
  {
    var r' :- RouteBase(r, box, fees, rent, balance, limits[0]);
    if r'.StillRouting() then RouteCalls(r', box, limits[1..]) else Ok(r')
  }

  /** Whatever the limits, a round never fails, and when it is over it is the completed round. */
  lemma {:induction false} CompletedInCalls(r: Router, box: Box, win: BallotTally, fees: Fees, rent: U64, balance: U64,
                                            incoming: nat, limits: seq<U16>)
    returns (b: Books)
    requires GetWinningTally(box) == Ok(win) && VotesOk(box.votes, box.operatorsVoted)
    requires Backed(box.votes, win) && NamedVoters(box.votes) && win.index < MAX_OPERATORS
    requires RouterOk(r, box) && !r.StillRouting()
    requires balance == rent + r.books.processed + incoming
    requires r.books.total + incoming <= U64_MAX
    requires limits != []
    ensures RoundCompleted(r.books, b, box, win, fees, incoming)
    ensures BaseRound(r, box, fees, rent, balance, limits).Ok?
    ensures var r' := BaseRound(r, box, fees, rent, balance, limits).value;
      !r'.StillRouting() ==> r' == Router(b, IDLE)
    ensures |limits| >= FEE_GROUP_COUNT * MAX_OPERATORS ==>
      !BaseRound(r, box, fees, rent, balance, limits).value.StillRouting()
  {
    b := CompletedRound(r, box, win, fees, rent, balance, incoming);
    var b1, b2 := IncomingIsSplit(r.books, fees, rent, balance);
    var split := r.(books := b2);
    assert RouteBase(r, box, fees, rent, balance, limits[0]) == RouteNcnFeeGroupRewards(split, box, limits[0]);
    assert BaseRound(r, box, fees, rent, balance, limits) == RouteCalls(split, box, limits);
    ChunkIndependence(split, box, win, limits);
    AllowedAtLeastCalls(limits);
    WorkBound(b2, win, box.votes, 0, 0, 0);
  }

  /** The dust of the groups from `g` on when group `h` started with `amounts[h]`. */
  function TotalDust(votes: VoteTable, win: BallotTally, amounts: seq<nat>, g: nat): int
    requires |amounts| == FEE_GROUP_COUNT
    decreases FEE_GROUP_COUNT - g
  {
    if g >= FEE_GROUP_COUNT then 0 else Dust(votes, win, g, amounts[g]) + TotalDust(votes, win, amounts, g + 1)
  }

  lemma {:induction false} DustIsTotal(b: Books, votes: VoteTable, win: BallotTally, g: nat, amounts: seq<nat>)
    requires |amounts| == FEE_GROUP_COUNT
    requires forall h :: 0 <= h < FEE_GROUP_COUNT ==> b.ncn[h] == amounts[h]
    ensures DustFrom(b, votes, win, g) == TotalDust(votes, win, amounts, g)
    decreases FEE_GROUP_COUNT - g
  {
    if g < FEE_GROUP_COUNT {
      DustIsTotal(b, votes, win, g + 1, amounts);
    }
  }

  /** The routes after a drained run, vote by vote. */
  lemma {:induction false} PaidRound(b: Books, b': Books, box: Box, win: BallotTally)
    requires VotesOk(box.votes, box.operatorsVoted) && win.index < MAX_OPERATORS
    requires GroupsPaid(b, b', box.votes, win, 0)
    ensures forall i, h: Group :: 0 <= i < |box.votes| && box.votes[i].ballotIndex == win.index ==>
      Owed(b'.routes, box.votes[i].operator, h) == Owed(b.routes, box.votes[i].operator, h)
        + Share(b.ncn[h], box.votes[i].weights.groups[h], win.weights.groups[h])
    ensures forall k, h: Group :: k != DEFAULT_KEY && !WinningVoter(box, win, k) ==>
      Owed(b'.routes, k, h) == Owed(b.routes, k, h)
  {
    forall i, h: Group | 0 <= i < |box.votes| && box.votes[i].ballotIndex == win.index
      ensures Owed(b'.routes, box.votes[i].operator, h) == Owed(b.routes, box.votes[i].operator, h)
        + Share(b.ncn[h], box.votes[i].weights.groups[h], win.weights.groups[h])
    {
      assert i < box.operatorsVoted;
      ShareOfVote(box.votes, box.operatorsVoted, win, h, b.ncn[h], i, 0);
    }
    forall k, h: Group | k != DEFAULT_KEY && !WinningVoter(box, win, k)
      ensures Owed(b'.routes, k, h) == Owed(b.routes, k, h)
    {
      forall i | 0 <= i < |box.votes| && box.votes[i].operator == k
        ensures VoteShares(box.votes, win, h, b.ncn[h])[i] == 0
      {
        SkippedShareIsZero(box.votes, win, h, i, b.ncn[h]);
      }
      PaidNothing(box.votes, VoteShares(box.votes, win, h, b.ncn[h]), k, 0);
    }
  }

  /** The dust of a group is less than one lamport per winning voter with weight in it; a group that
      nobody on the winning side has weight in goes to the DAO whole. */
  lemma {:induction false} DustBound(votes: VoteTable, win: BallotTally, g: Group, rewards: nat)
    requires Backed(votes, win)
    ensures 0 <= Dust(votes, win, g, rewards) <= rewards
    ensures win.weights.groups[g] == 0 ==> Dust(votes, win, g, rewards) == rewards
    ensures win.weights.groups[g] > 0 ==>
      Dust(votes, win, g, rewards) < Sum(Positive(GroupWeightsOf(votes, win, g)))
  {
    var weights := GroupWeightsOf(votes, win, g);
    SharesFit(rewards, weights, win.weights.groups[g]);
    if win.weights.groups[g] == 0 {
      SumZero(VoteShares(votes, win, g, rewards));
    } else {
      ShareDust(rewards, weights, win.weights.groups[g]);
    }
  }

  // ------------------------------------------------------------------
  // Paying out
  // ------------------------------------------------------------------

  /** Paying out a base group always succeeds and keeps the books balanced. */
  lemma {:induction false} DistributeBaseKeeps(r: Router, box: Box, g: Group)
    requires RouterOk(r, box) && !r.StillRouting()
    ensures DistributeBase(r.books, g).Ok?
    ensures var (b', paid) := DistributeBase(r.books, g).value;
      && RouterOk(r.(books := b'), box)
      && paid == r.books.base[g] && b'.base == r.books.base[g := 0]
      && b'.total == r.books.total && b'.processed + paid == r.books.processed
  {
    SumAtLeast(r.books.base, g);
    SumUpdate(r.books.base, g, 0);
  }

  /** Moving a route on succeeds exactly when the operator has one. */
  lemma {:induction false} DistributeRouteKeeps(r: Router, box: Box, g: Group, operator: Key)
    requires RouterOk(r, box) && !r.StillRouting() && operator != DEFAULT_KEY
    ensures DistributeRoute(r.books, g, operator).Ok?
       <==> exists i :: 0 <= i < |r.books.routes| && r.books.routes[i].operator == operator
    ensures DistributeRoute(r.books, g, operator).Ok? ==>
      var (b', paid) := DistributeRoute(r.books, g, operator).value;
      && RouterOk(r.(books := b'), box)
      && paid == Owed(r.books.routes, operator, g)
      && (forall k, h: Group :: k != DEFAULT_KEY ==>
           Owed(b'.routes, k, h) == if k == operator && h == g then 0 else Owed(r.books.routes, k, h))
      && b'.total == r.books.total && b'.processed + paid == r.books.processed
  {
    var i := FindRoute(r.books.routes, operator, 0);
    if i < |r.books.routes| {
      RouteIsPart(r.books.routes, i, g);
      ShrinkRoute(r.books.routes, Voters(box.votes), i, g);
    }
  }

  lemma {:induction false} ShrinkRoute(routes: RouteTable, voters: set<Key>, r: nat, g: Group)
    requires RoutesOk(routes, voters)
    requires r < |routes| && routes[r] != EMPTY_ROUTE
    requires FindRoute(routes, routes[r].operator, 0) == r
    ensures var routes' := routes[r := routes[r].(rewards := routes[r].rewards[g := 0])];
      && RoutesOk(routes', voters)
      && Sum(RouteTotals(routes')) + routes[r].rewards[g] == Sum(RouteTotals(routes))
      && forall k, h: Group :: k != DEFAULT_KEY ==>
           Owed(routes', k, h) == if k == routes[r].operator && h == g then 0 else Owed(routes, k, h)
  {
    var routes' := routes[r := routes[r].(rewards := routes[r].rewards[g := 0])];
    SumUpdate(routes[r].rewards, g, 0);
    RouteTotalsUpdate(routes, r, routes'[r]);
    forall k ensures FindRoute(routes', k, 0) == FindRoute(routes, k, 0) {
      SameOperatorsSameRoute(routes, routes', k);
    }
  }
}
