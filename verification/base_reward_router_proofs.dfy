/** Base routing never gets stuck, conserves lamports, and pays exact floored shares. */
module BaseRewardRouterProofs {
  import opened Common
  import opened Sums
  import opened FlooredShares
  import opened StakeWeight
  import opened BallotBoxSpec
  import opened BallotBoxProofs
  import opened FeesSpec
  import opened BaseRewardRouterSpec
  import opened BaseRewardRouterChunks

  // ------------------------------------------------------------------
  // Books
  // ------------------------------------------------------------------

  function RouteTotals(routes: seq<Route>): (r: seq<nat>)
    ensures |r| == |routes|
  {
    seq(|routes|, i requires 0 <= i < |routes| => Sum(routes[i].rewards))
  }

  /** Every processed lamport sits in exactly one bucket. */
  ghost predicate Balanced(b: Books) {
    b.processed == Sum(b.base) + Sum(b.ncn) + Sum(RouteTotals(b.routes))
  }

  ghost function Voters(votes: seq<OperatorVote>): set<Key> {
    set i | 0 <= i < |votes| && !votes[i].IsEmpty() :: votes[i].operator
  }

  /** Opened routes belong to distinct voters; unopened ones hold nothing. */
  ghost predicate RoutesOk(routes: seq<Route>, voters: set<Key>) {
    && |routes| == MAX_OPERATORS
    && (forall i :: 0 <= i < |routes| ==>
         routes[i] == EMPTY_ROUTE || (routes[i].operator != DEFAULT_KEY && routes[i].operator in voters))
    && (forall i, j :: 0 <= i < j < |routes| && routes[i].operator == routes[j].operator ==> routes[i] == EMPTY_ROUTE)
  }

  /** What the table owes an operator in a group. */
  function Owed(routes: seq<Route>, operator: Key, g: Group): nat {
    var r := FindRoute(routes, operator, 0);
    if r < |routes| then routes[r].rewards[g] else 0
  }

  lemma {:induction false} RouteTotalsUpdate(routes: seq<Route>, i: nat, route: Route)
    requires i < |routes|
    ensures Sum(RouteTotals(routes[i := route])) + Sum(routes[i].rewards)
         == Sum(RouteTotals(routes)) + Sum(route.rewards)
  {
    assert RouteTotals(routes[i := route]) == RouteTotals(routes)[i := Sum(route.rewards)];
    SumUpdate(RouteTotals(routes), i, Sum(route.rewards));
  }

  lemma {:induction false} RouteIsPart(routes: seq<Route>, i: nat, g: Group)
    requires i < |routes|
    ensures routes[i].rewards[g] <= Sum(routes[i].rewards) <= Sum(RouteTotals(routes))
  {
    SumAtLeast(routes[i].rewards, g);
    SumAtLeast(RouteTotals(routes), i);
  }

  lemma {:induction false} VotersFitTable(votes: VoteTable)
    ensures |Voters(votes)| <= MAX_OPERATORS
  {
    var operators := seq(|votes|, i requires 0 <= i < |votes| => votes[i].operator);
    forall k | k in Voters(votes) ensures k in operators {
      var i :| 0 <= i < |votes| && votes[i].operator == k;
      assert operators[i] == k;
    }
    MembersWithinLength(operators, Voters(votes));
  }

  /** A voter without a route always finds an empty slot: routes belong to distinct voters. */
  lemma {:induction false} RoomForVoter(routes: seq<Route>, votes: VoteTable, operator: Key)
    requires RoutesOk(routes, Voters(votes))
    requires operator in Voters(votes) && FindRoute(routes, operator, 0) == |routes|
    ensures FindRoute(routes, DEFAULT_KEY, 0) < |routes|
  {
    if FindRoute(routes, DEFAULT_KEY, 0) == |routes| {
      var operators := seq(|routes|, i requires 0 <= i < |routes| => routes[i].operator);
      VotersFitTable(votes);
      DistinctWithin(operators, Voters(votes) - {operator});
    }
  }

  lemma {:induction false} FindRouteIs(routes: seq<Route>, operator: Key, r: nat)
    requires r < |routes| && routes[r].operator == operator
    requires forall j :: 0 <= j < r ==> routes[j].operator != operator
    ensures FindRoute(routes, operator, 0) == r
  {
  }

  lemma {:induction false} SameOperatorsSameRoute(routes: seq<Route>, routes': seq<Route>, operator: Key)
    requires |routes| == |routes'|
    requires forall i :: 0 <= i < |routes| ==> (routes[i].operator == operator <==> routes'[i].operator == operator)
    ensures FindRoute(routes, operator, 0) == FindRoute(routes', operator, 0)
  {
    var r := FindRoute(routes, operator, 0);
    var r' := FindRoute(routes', operator, 0);
    if r < |routes| {
      FindRouteIs(routes', operator, r);
    }
  }

  /** Raising an entry of an open route. */
  lemma {:induction false} GrowRoute(routes: RouteTable, voters: set<Key>, r: nat, g: Group, sum: U64)
    requires RoutesOk(routes, voters)
    requires r < |routes| && routes[r] != EMPTY_ROUTE && sum >= routes[r].rewards[g]
    requires FindRoute(routes, routes[r].operator, 0) == r
    ensures var routes' := routes[r := routes[r].(rewards := routes[r].rewards[g := sum])];
      && RoutesOk(routes', voters)
      && Sum(RouteTotals(routes')) == Sum(RouteTotals(routes)) + sum - routes[r].rewards[g]
      && forall k, h: Group :: k != DEFAULT_KEY ==>
           Owed(routes', k, h) == if k == routes[r].operator && h == g then sum else Owed(routes, k, h)
  {
    var routes' := routes[r := routes[r].(rewards := routes[r].rewards[g := sum])];
    SumUpdate(routes[r].rewards, g, sum);
    RouteTotalsUpdate(routes, r, routes'[r]);
    forall k ensures FindRoute(routes', k, 0) == FindRoute(routes, k, 0) {
      SameOperatorsSameRoute(routes, routes', k);
    }
  }

  /** Opening a route in an empty slot. */
  lemma {:induction false} OpenRoute(routes: RouteTable, voters: set<Key>, f: nat, operator: Key, g: Group, amount: U64)
    requires RoutesOk(routes, voters)
    requires f < |routes| && routes[f].operator == DEFAULT_KEY
    requires operator in voters && operator != DEFAULT_KEY && FindRoute(routes, operator, 0) == |routes|
    ensures var routes' := routes[f := Route(operator, NO_AMOUNTS[g := amount])];
      && RoutesOk(routes', voters)
      && Sum(RouteTotals(routes')) == Sum(RouteTotals(routes)) + amount
      && forall k, h: Group :: k != DEFAULT_KEY ==>
           Owed(routes', k, h) == if k == operator && h == g then amount else Owed(routes, k, h)
  {
    var routes' := routes[f := Route(operator, NO_AMOUNTS[g := amount])];
    SumZero(NO_AMOUNTS);
    SumUpdate(NO_AMOUNTS, g, amount);
    RouteTotalsUpdate(routes, f, routes'[f]);
    FindRouteIs(routes', operator, f);
    forall k | k != DEFAULT_KEY && k != operator
      ensures FindRoute(routes', k, 0) == FindRoute(routes, k, 0)
    {
      SameOperatorsSameRoute(routes, routes', k);
    }
  }

  /** What routing to one operator does: room is always found, nothing else moves. */
  lemma {:induction false} ToRouteAdds(b: Books, votes: VoteTable, g: Group, operator: Key, amount: U64)
    requires RoutesOk(b.routes, Voters(votes))
    requires operator in Voters(votes) && operator != DEFAULT_KEY
    requires Sum(RouteTotals(b.routes)) + amount <= U64_MAX
    ensures ToRoute(b, g, operator, amount).Ok?
    ensures var b' := ToRoute(b, g, operator, amount).value;
      && b' == b.(routes := b'.routes)
      && RoutesOk(b'.routes, Voters(votes))
      && Sum(RouteTotals(b'.routes)) == Sum(RouteTotals(b.routes)) + amount
      && forall k, h: Group :: k != DEFAULT_KEY ==>
           Owed(b'.routes, k, h) == Owed(b.routes, k, h) + if k == operator && h == g then amount else 0
  {
    if amount > 0 {
      var r := FindRoute(b.routes, operator, 0);
      if r < |b.routes| {
        RouteIsPart(b.routes, r, g);
        GrowRoute(b.routes, Voters(votes), r, g, b.routes[r].rewards[g] + amount);
      } else {
        RoomForVoter(b.routes, votes, operator);
        OpenRoute(b.routes, Voters(votes), FindRoute(b.routes, DEFAULT_KEY, 0), operator, g, amount);
      }
    }
  }

  // ------------------------------------------------------------------
  // Shares of a group
  // ------------------------------------------------------------------

  /** The winning votes' weights in a group, 0 for every other slot. */
  function GroupWeightsOf(votes: VoteTable, win: BallotTally, g: Group): seq<nat> {
    Contributions(votes, win.index, GroupStake(g))
  }

  function VoteShares(votes: VoteTable, win: BallotTally, g: Group, rewards: nat): (r: seq<nat>)
    ensures |r| == |votes|
  {
    Shares(rewards, GroupWeightsOf(votes, win, g), win.weights.groups[g])
  }

  /** The winning tally is what its votes add up to: the fact the ballot box guarantees. */
  ghost predicate Backed(votes: VoteTable, win: BallotTally) {
    forall g: Group :: Sum(GroupWeightsOf(votes, win, g)) == win.weights.groups[g]
  }

  /** A vote table whose recorded votes name real operators. */
  ghost predicate NamedVoters(votes: VoteTable) {
    forall i :: 0 <= i < |votes| && !votes[i].IsEmpty() ==> votes[i].operator != DEFAULT_KEY
  }

  lemma {:induction false} VoteSharesFit(votes: VoteTable, win: BallotTally, g: Group, rewards: nat, v: nat)
    requires Backed(votes, win) && v <= |votes|
    ensures Sum(VoteShares(votes, win, g, rewards)[..v]) <= rewards
    ensures v < |votes| ==>
      Sum(VoteShares(votes, win, g, rewards)[..v]) + VoteShares(votes, win, g, rewards)[v] <= rewards
  {
    var shares := VoteShares(votes, win, g, rewards);
    SharesFit(rewards, GroupWeightsOf(votes, win, g), win.weights.groups[g]);
    SumOfPrefix(shares, v);
    if v < |votes| {
      SumPrefix(shares, v);
      SumOfPrefix(shares, v + 1);
    }
  }

  /** In the middle of group `g`, before slot `v`: the bucket holds what the earlier votes left. */
  ghost predicate InGroup(b: Books, votes: VoteTable, win: BallotTally, g: nat, v: nat, rewards: nat) {
    && g < FEE_GROUP_COUNT && v <= |votes|
    && Balanced(b) && RoutesOk(b.routes, Voters(votes))
    && b.ncn[g] + Sum(VoteShares(votes, win, g, rewards)[..v]) == rewards
    && forall h :: 0 <= h < g ==> b.ncn[h] == 0
  }

  /** Between two states of a routing run only the group's bucket and the routes move. */
  ghost predicate OnlyGroupMoved(b: Books, b': Books, g: nat) {
    && b' == b.(ncn := b'.ncn, routes := b'.routes)
    && forall h :: 0 <= h < FEE_GROUP_COUNT && h != g ==> b'.ncn[h] == b.ncn[h]
  }

  lemma {:induction false} CheckedShareIsShare(amount: U64, weight: nat, total: nat)
    requires weight <= total && Share(amount, weight, total) <= U64_MAX
    ensures CheckedShare(amount, weight, total) == Ok(Share(amount, weight, total))
  {
    if weight == 0 || amount == 0 {
      assert amount * weight == 0;
    }
  }

  lemma {:induction false} PaidShare(votes: VoteTable, win: BallotTally, g: Group, v: nat, rewards: U64)
    requires Backed(votes, win) && v < |votes| && votes[v].ballotIndex == win.index
    ensures CheckedShare(rewards, votes[v].weights.groups[g], win.weights.groups[g])
         == Ok(VoteShares(votes, win, g, rewards)[v])
  {
    var weights := GroupWeightsOf(votes, win, g);
    assert weights[v] == votes[v].weights.groups[g];
    SumAtLeast(weights, v);
    assert weights[v] <= win.weights.groups[g];
    VoteSharesFit(votes, win, g, rewards, v);
    CheckedShareIsShare(rewards, weights[v], win.weights.groups[g]);
  }

  /** Paying one winning vote always succeeds and moves exactly its floored share. */
  lemma {:induction false} PayVoteSucceeds(b: Books, votes: VoteTable, win: BallotTally, g: nat, v: nat, rewards: U64)
    requires Backed(votes, win) && NamedVoters(votes)
    requires InGroup(b, votes, win, g, v, rewards)
    requires v < |votes| && votes[v].ballotIndex == win.index != NO_INDEX
    ensures PayVote(b, win, votes[v], g, rewards).Ok?
    ensures var b' := PayVote(b, win, votes[v], g, rewards).value;
      && InGroup(b', votes, win, g, v + 1, rewards)
      && OnlyGroupMoved(b, b', g)
      && forall k, h: Group :: k != DEFAULT_KEY ==>
           Owed(b'.routes, k, h) == Owed(b.routes, k, h)
             + if k == votes[v].operator && h == g then VoteShares(votes, win, g, rewards)[v] else 0
  {
    var share := VoteShares(votes, win, g, rewards)[v];
    PaidShare(votes, win, g, v, rewards);
    VoteSharesFit(votes, win, g, rewards, v);
    SumPrefix(VoteShares(votes, win, g, rewards), v);
    SumAtLeast(b.ncn, g);
    SumUpdate(b.ncn, g, b.ncn[g] - share);
    var b1 := FromNcn(b, g, share).value;
    assert votes[v].operator in Voters(votes);
    ToRouteAdds(b1, votes, g, votes[v].operator, share);
  }

  lemma {:induction false} SkippedShareIsZero(votes: VoteTable, win: BallotTally, g: Group, v: nat, rewards: nat)
    requires v < |votes| && votes[v].ballotIndex != win.index
    ensures VoteShares(votes, win, g, rewards)[v] == 0
    ensures Sum(VoteShares(votes, win, g, rewards)[..v + 1]) == Sum(VoteShares(votes, win, g, rewards)[..v])
  {
    assert GroupWeightsOf(votes, win, g)[v] == 0;
    assert rewards * 0 == 0;
    SumPrefix(VoteShares(votes, win, g, rewards), v);
  }

  /** A run of the inner loop that did not fail, wherever it stopped. */
  ghost predicate VotesRouted(b: Books, votes: VoteTable, win: BallotTally, g: nat, rewards: U64,
                              outcome: Result<Outcome>) {
    match outcome
    case Err(_) => false
    case Ok(Finished(b', _)) => InGroup(b', votes, win, g, |votes|, rewards) && OnlyGroupMoved(b, b', g)
    case Ok(Paused(b', cursor)) => InGroup(b', votes, win, g, cursor.vote, rewards) && OnlyGroupMoved(b, b', g)
  }

  lemma {:induction false} VotesRoutedFrom(b: Books, b': Books, votes: VoteTable, win: BallotTally, g: nat,
                                           rewards: U64, outcome: Result<Outcome>)
    requires OnlyGroupMoved(b, b', g) && VotesRouted(b', votes, win, g, rewards, outcome)
    ensures VotesRouted(b, votes, win, g, rewards, outcome)
  {
  }

  lemma {:induction false} PayVoteStays(b: Books, votes: VoteTable, win: BallotTally, g: nat, v: nat, rewards: U64)
    returns (b': Books)
    requires Backed(votes, win) && NamedVoters(votes)
    requires InGroup(b, votes, win, g, v, rewards)
    requires v < |votes| && votes[v].ballotIndex == win.index != NO_INDEX
    ensures PayVote(b, win, votes[v], g, rewards) == Ok(b')
    ensures InGroup(b', votes, win, g, v + 1, rewards) && OnlyGroupMoved(b, b', g)
  {
    PayVoteSucceeds(b, votes, win, g, v, rewards);
    b' := PayVote(b, win, votes[v], g, rewards).value;
  }

  /** The inner loop never fails. */
  lemma {:induction false} RouteVotesSucceeds(b: Books, votes: VoteTable, win: BallotTally, g: nat, v: nat,
                                              rewards: U64,
                                              iterations: nat, max: nat)
    requires Backed(votes, win) && NamedVoters(votes) && win.index != NO_INDEX
    requires InGroup(b, votes, win, g, v, rewards)
    requires iterations <= max <= U16_MAX && iterations + VotesLeft(votes, win.index, v) <= U16_MAX
    ensures VotesRouted(b, votes, win, g, rewards, RouteVotes(b, win, votes, g, v, rewards, iterations, max))
    decreases |votes| - v
  {
    if v >= |votes| {
    } else if votes[v].ballotIndex != win.index {
      SkippedShareIsZero(votes, win, g, v, rewards);
      RouteVotesSucceeds(b, votes, win, g, v + 1, rewards, iterations, max);
    } else if iterations + 1 <= max {
      var b' := PayVoteStays(b, votes, win, g, v, rewards);
      RouteVotesSucceeds(b', votes, win, g, v + 1, rewards, iterations + 1, max);
      VotesRoutedFrom(b, b', votes, win, g, rewards, RouteVotes(b, win, votes, g, v, rewards, iterations, max));
    }
  }

  /** Sweeping a group into the DAO's bucket always succeeds and empties it. */
  lemma {:induction false} SweepGroupSucceeds(b: Books, g: Group)
    requires Balanced(b)
    ensures SweepGroup(b, g).Ok?
    ensures var b' := SweepGroup(b, g).value;
      && Balanced(b')
      && b' == b.(base := b.base[DAO := b.base[DAO] + b.ncn[g]], ncn := b.ncn[g := 0])
  {
    SumAtLeast(b.ncn, g);
    SumAtLeast(b.base, DAO);
    SumUpdate(b.ncn, g, 0);
    SumUpdate(b.base, DAO, b.base[DAO] + b.ncn[g]);
  }

  /** A point from which routing can go on: at the start of group `g`, or in the middle of it. */
  ghost predicate CanRoute(b: Books, votes: VoteTable, win: BallotTally, g: nat, v: nat, saved: U64) {
    && g <= FEE_GROUP_COUNT && v <= |votes|
    && Balanced(b) && RoutesOk(b.routes, Voters(votes))
    && (forall h :: 0 <= h < g ==> b.ncn[h] == 0)
    && (saved > 0 ==> InGroup(b, votes, win, g, v, saved))
    && (saved == 0 ==> v == 0)
  }

  lemma {:induction false} StartOfGroup(b: Books, votes: VoteTable, win: BallotTally, g: nat)
    requires g < FEE_GROUP_COUNT && Balanced(b) && RoutesOk(b.routes, Voters(votes))
    requires forall h :: 0 <= h < g ==> b.ncn[h] == 0
    ensures InGroup(b, votes, win, g, 0, b.ncn[g])
  {
    assert VoteShares(votes, win, g, b.ncn[g])[..0] == [];
  }

  /** A run of the outer loop that did not fail: it stopped at a point it can be resumed at, or
      with every group bucket empty. */
  ghost predicate GroupsRouted(b: Books, votes: VoteTable, win: BallotTally, outcome: Result<(Books, Cursor)>) {
    && outcome.Ok?
    && var (b', cursor) := outcome.value;
    && b' == b.(base := b'.base, ncn := b'.ncn, routes := b'.routes)
    && Balanced(b') && RoutesOk(b'.routes, Voters(votes))
    && (forall h :: 0 < h < FEE_GROUP_COUNT ==> b'.base[h] == b.base[h])
    && (cursor == IDLE ==> forall h :: 0 <= h < FEE_GROUP_COUNT ==> b'.ncn[h] == 0)
    && (cursor != IDLE ==>
         cursor.group < FEE_GROUP_COUNT && cursor.rewards > 0
         && CanRoute(b', votes, win, cursor.group, cursor.vote, cursor.rewards))
  }

  lemma {:induction false} GroupsRoutedFrom(b: Books, b1: Books, votes: VoteTable, win: BallotTally,
                                            outcome: Result<(Books, Cursor)>)
    requires b1 == b.(base := b1.base, ncn := b1.ncn, routes := b1.routes)
    requires forall h :: 0 < h < FEE_GROUP_COUNT ==> b1.base[h] == b.base[h]
    requires GroupsRouted(b1, votes, win, outcome)
    ensures GroupsRouted(b, votes, win, outcome)
  {
  }

  /** Routing never fails from a point it can be resumed at. */
  lemma {:induction false} RouteGroupsSucceeds(b: Books, votes: VoteTable, win: BallotTally, g: nat, v: nat, saved: U64,
                                               iterations: nat, max: nat)
    requires Backed(votes, win) && NamedVoters(votes) && win.index != NO_INDEX
    requires CanRoute(b, votes, win, g, v, saved)
    requires iterations <= max <= U16_MAX && iterations + Work(b, win, votes, g, v, saved) <= U16_MAX
    ensures GroupsRouted(b, votes, win, RouteGroups(b, win, votes, g, v, saved, iterations, max))
    decreases FEE_GROUP_COUNT - g
  {
    if g < FEE_GROUP_COUNT {
      var rewards := StartingRewards(b, g, saved);
      if rewards == 0 {
        RouteGroupsSucceeds(b, votes, win, g + 1, v, 0, iterations, max);
      } else {
        if saved == 0 {
          StartOfGroup(b, votes, win, g);
        }
        RouteVotesSucceeds(b, votes, win, g, v, rewards, iterations, max);
        RouteVotesIsDrain(b, win, votes, g, v, rewards, iterations, max);
        match RouteVotes(b, win, votes, g, v, rewards, iterations, max).value
        case Paused(_, _) =>
        case Finished(b', iterations') =>
          SweepGroupSucceeds(b', g);
          var b'' := SweepGroup(b', g).value;
          WorkFrame(b, b'', win, votes, g + 1, 0);
          RouteGroupsSucceeds(b'', votes, win, g + 1, 0, 0, iterations', max);
          GroupsRoutedFrom(b, b'', votes, win, RouteGroups(b'', win, votes, g + 1, 0, 0, iterations', max));
      }
    }
  }

  // ------------------------------------------------------------------
  // Exact shares
  // ------------------------------------------------------------------

  /** What the votes from slot `v` on bring an operator. */
  function PaidFrom(votes: seq<OperatorVote>, shares: seq<nat>, operator: Key, v: nat): nat
    requires |shares| == |votes|
    decreases |votes| - v
  {
    if v >= |votes| then 0
    else (if votes[v].operator == operator then shares[v] else 0) + PaidFrom(votes, shares, operator, v + 1)
  }

  lemma {:induction false} DrainVotesPays(b: Books, votes: VoteTable, win: BallotTally, g: nat, v: nat, rewards: U64)
    requires Backed(votes, win) && NamedVoters(votes) && win.index != NO_INDEX
    requires InGroup(b, votes, win, g, v, rewards)
    ensures DrainVotes(b, win, votes, g, v, rewards).Ok?
    ensures var b' := DrainVotes(b, win, votes, g, v, rewards).value;
      && InGroup(b', votes, win, g, |votes|, rewards)
      && OnlyGroupMoved(b, b', g)
      && forall k, h: Group :: k != DEFAULT_KEY ==>
           Owed(b'.routes, k, h) == Owed(b.routes, k, h)
             + if h == g then PaidFrom(votes, VoteShares(votes, win, g, rewards), k, v) else 0
    decreases |votes| - v
  {
    if v >= |votes| {
    } else if votes[v].ballotIndex != win.index {
      SkippedShareIsZero(votes, win, g, v, rewards);
      DrainVotesPays(b, votes, win, g, v + 1, rewards);
    } else {
      PayVoteSucceeds(b, votes, win, g, v, rewards);
      DrainVotesPays(PayVote(b, win, votes[v], g, rewards).value, votes, win, g, v + 1, rewards);
    }
  }

  /** What flooring leaves in a group. */
  function Dust(votes: VoteTable, win: BallotTally, g: Group, rewards: nat): int {
    rewards - Sum(VoteShares(votes, win, g, rewards))
  }

  /** What flooring leaves in the groups from `g` on. */
  function DustFrom(b: Books, votes: VoteTable, win: BallotTally, g: nat): int
    decreases FEE_GROUP_COUNT - g
  {
    if g >= FEE_GROUP_COUNT then 0 else Dust(votes, win, g, b.ncn[g]) + DustFrom(b, votes, win, g + 1)
  }

  lemma {:induction false} DustFrame(b: Books, b': Books, votes: VoteTable, win: BallotTally, g: nat)
    requires forall h :: g <= h < FEE_GROUP_COUNT ==> b.ncn[h] == b'.ncn[h]
    ensures DustFrom(b, votes, win, g) == DustFrom(b', votes, win, g)
    decreases FEE_GROUP_COUNT - g
  {
    if g < FEE_GROUP_COUNT {
      DustFrame(b, b', votes, win, g + 1);
    }
  }

  lemma {:induction false} NothingToShare(votes: VoteTable, win: BallotTally, g: Group)
    ensures forall i :: 0 <= i < |votes| ==> VoteShares(votes, win, g, 0)[i] == 0
    ensures Dust(votes, win, g, 0) == 0
    ensures forall k :: PaidFrom(votes, VoteShares(votes, win, g, 0), k, 0) == 0
  {
    var shares := VoteShares(votes, win, g, 0);
    forall i | 0 <= i < |votes| ensures shares[i] == 0 {
      assert 0 * GroupWeightsOf(votes, win, g)[i] == 0;
    }
    SumZero(shares);
    forall k ensures PaidFrom(votes, shares, k, 0) == 0 {
      PaidNothing(votes, shares, k, 0);
    }
  }

  lemma {:induction false} PaidNothing(votes: seq<OperatorVote>, shares: seq<nat>, operator: Key, v: nat)
    requires |shares| == |votes|
    requires forall i :: v <= i < |votes| && votes[i].operator == operator ==> shares[i] == 0
    ensures PaidFrom(votes, shares, operator, v) == 0
    decreases |votes| - v
  {
    if v < |votes| {
      PaidNothing(votes, shares, operator, v + 1);
    }
  }

  /** Groups from `g` on, routed to the end: every operator's route grows by its shares of what each
      group held, the groups are empty, and the DAO got exactly the dust. */
  ghost predicate GroupsPaid(b: Books, b': Books, votes: VoteTable, win: BallotTally, g: nat) {
    && b' == b.(base := b'.base, ncn := b'.ncn, routes := b'.routes)
    && Balanced(b') && RoutesOk(b'.routes, Voters(votes))
    && (forall h :: 0 <= h < FEE_GROUP_COUNT ==> b'.ncn[h] == 0)
    && b'.base[DAO] == b.base[DAO] + DustFrom(b, votes, win, g)
    && (forall h :: 0 < h < FEE_GROUP_COUNT ==> b'.base[h] == b.base[h])
    && forall k, h: Group :: k != DEFAULT_KEY ==>
         Owed(b'.routes, k, h) == Owed(b.routes, k, h)
           + if h >= g then PaidFrom(votes, VoteShares(votes, win, h, b.ncn[h]), k, 0) else 0
  }

  /** One more group in front. */
  lemma {:induction false} GroupsPaidStep(b: Books, b1: Books, b2: Books, b': Books, votes: VoteTable, win: BallotTally,
                                          g: nat)
    requires g < FEE_GROUP_COUNT
    requires InGroup(b1, votes, win, g, |votes|, b.ncn[g]) && OnlyGroupMoved(b, b1, g)
    requires forall k, h: Group :: k != DEFAULT_KEY ==>
      Owed(b1.routes, k, h) == Owed(b.routes, k, h)
        + if h == g then PaidFrom(votes, VoteShares(votes, win, g, b.ncn[g]), k, 0) else 0
    requires SweepGroup(b1, g) == Ok(b2)
    requires GroupsPaid(b2, b', votes, win, g + 1)
    ensures GroupsPaid(b, b', votes, win, g)
  {
    var shares := VoteShares(votes, win, g, b.ncn[g]);
    assert shares[..|votes|] == shares;
    DustFrame(b, b2, votes, win, g + 1);
    forall k, h: Group | k != DEFAULT_KEY
      ensures Owed(b'.routes, k, h) == Owed(b.routes, k, h)
                + if h >= g then PaidFrom(votes, VoteShares(votes, win, h, b.ncn[h]), k, 0) else 0
    {
      assert h != g ==> b2.ncn[h] == b.ncn[h];
    }
  }

  /** The unlimited run in closed form. */
  lemma {:induction false} DrainGroupsPays(b: Books, votes: VoteTable, win: BallotTally, g: nat)
    requires Backed(votes, win) && NamedVoters(votes) && win.index != NO_INDEX
    requires CanRoute(b, votes, win, g, 0, 0)
    ensures DrainGroups(b, win, votes, g, 0, 0).Ok?
    ensures GroupsPaid(b, DrainGroups(b, win, votes, g, 0, 0).value, votes, win, g)
    decreases FEE_GROUP_COUNT - g
  {
    if g < FEE_GROUP_COUNT {
      var rewards := b.ncn[g];
      if rewards == 0 {
        NothingToShare(votes, win, g);
        DrainGroupsPays(b, votes, win, g + 1);
      } else {
        StartOfGroup(b, votes, win, g);
        DrainVotesPays(b, votes, win, g, 0, rewards);
        var b1 := DrainVotes(b, win, votes, g, 0, rewards).value;
        SweepGroupSucceeds(b1, g);
        var b2 := SweepGroup(b1, g).value;
        DrainGroupsPays(b2, votes, win, g + 1);
        GroupsPaidStep(b, b1, b2, DrainGroups(b2, win, votes, g + 1, 0, 0).value, votes, win, g);
      }
    }
  }
}
