/** The base reward router as a value (core/src/base_reward_router.rs). The money (`Books`) is kept
    apart from the saved routing position (`Cursor`), because routing reads only the money. */
module BaseRewardRouterSpec {
  import opened Common
  import opened FlooredShares
  import opened BallotBoxSpec
  import opened FeesSpec

  type Amounts = s: seq<U64> | |s| == FEE_GROUP_COUNT witness Filled(FEE_GROUP_COUNT, 0)

  /** What one operator is owed, per fee group. */
  datatype Route = Route(operator: Key, rewards: Amounts)

  const NO_AMOUNTS: Amounts := Filled(FEE_GROUP_COUNT, 0)
  const EMPTY_ROUTE := Route(DEFAULT_KEY, NO_AMOUNTS)

  type RouteTable = s: seq<Route> | |s| == MAX_OPERATORS witness Filled(MAX_OPERATORS, EMPTY_ROUTE)

  const DAO: Group := 0

  datatype Books = Books(
    total: U64,
    pool: U64,
    processed: U64,
    base: Amounts,
    ncn: Amounts,
    routes: RouteTable)

  const NO_GROUP: nat := 0xFF

  /** Where an interrupted routing run goes on, and the amount its group started with. */
  datatype Cursor = Cursor(group: nat, vote: U16, rewards: U64)

  const IDLE := Cursor(NO_GROUP, U16_MAX, U64_MAX)

  datatype Router = Router(books: Books, cursor: Cursor) {
    predicate StillRouting() {
      cursor.group != NO_GROUP || cursor.vote != U16_MAX || cursor.rewards != U64_MAX
    }
  }

  const NEW_BOOKS := Books(0, 0, 0, NO_AMOUNTS, NO_AMOUNTS, Filled(MAX_OPERATORS, EMPTY_ROUTE))
  const NEW_ROUTER := Router(NEW_BOOKS, IDLE)

  // ------------------------------------------------------------------
  // Moving amounts
  // ------------------------------------------------------------------

  function ToPool(b: Books, amount: U64): Result<Books> {
    if amount == 0 then Ok(b)
    else
      var total :- CheckedAdd64(b.total, amount);
      var pool :- CheckedAdd64(b.pool, amount);
      Ok(b.(total := total, pool := pool))
  }

  function FromPool(b: Books, amount: U64): Result<Books> {
    if amount == 0 then Ok(b)
    else
      var pool :- CheckedSub(b.pool, amount, ArithmeticUnderflow);
      var processed :- CheckedAdd64(b.processed, amount);
      Ok(b.(pool := pool, processed := processed))
  }

  function ToBase(b: Books, group: Group, amount: U64): Result<Books> {
    var sum :- CheckedAdd64(b.base[group], amount);
    Ok(b.(base := b.base[group := sum]))
  }

  function ToNcn(b: Books, group: Group, amount: U64): Result<Books> {
    var sum :- CheckedAdd64(b.ncn[group], amount);
    Ok(b.(ncn := b.ncn[group := sum]))
  }

  function FromNcn(b: Books, group: Group, amount: U64): Result<Books> {
    var rest :- CheckedSub(b.ncn[group], amount, ArithmeticUnderflow);
    Ok(b.(ncn := b.ncn[group := rest]))
  }

  /** The first route of a key from slot `i` on; the default key finds an empty slot. */
  function FindRoute(routes: seq<Route>, operator: Key, i: nat): (r: nat)
    requires i <= |routes|
    ensures i <= r <= |routes|
    ensures r < |routes| ==> routes[r].operator == operator
    ensures forall j :: i <= j < r ==> routes[j].operator != operator
    decreases |routes| - i
  {
    if i == |routes| || routes[i].operator == operator then i else FindRoute(routes, operator, i + 1)
  }

  /** Add to an operator's route, opening one in the first empty slot if it has none. */
  function ToRoute(b: Books, group: Group, operator: Key, amount: U64): Result<Books> {
    if amount == 0 then Ok(b)
    else
      var r := FindRoute(b.routes, operator, 0);
      if r < |b.routes| then
        var sum :- CheckedAdd64(b.routes[r].rewards[group], amount);
        Ok(b.(routes := b.routes[r := b.routes[r].(rewards := b.routes[r].rewards[group := sum])]))
      else
        var f := FindRoute(b.routes, DEFAULT_KEY, 0);
        if f == |b.routes| then Err(OperatorRewardListFull)
        else Ok(b.(routes := b.routes[f := Route(operator, NO_AMOUNTS[group := amount])]))
  }

  // ------------------------------------------------------------------
  // Routing
  // ------------------------------------------------------------------

  /** A floored fraction that must fit in 64 bits. */
  function CheckedShare(amount: U64, weight: nat, total: nat): Result<U64> {
    if weight == 0 || amount == 0 then Ok(0)
    else if total == 0 then Err(ArithmeticOverflow)
    else if Share(amount, weight, total) > U64_MAX then Err(CastToU64)
    else Ok(Share(amount, weight, total))
  }

  /** `route_incoming_rewards`: whatever the receiver holds beyond rent and the rewards in transit. */
  function RouteIncoming(b: Books, rent: U64, balance: U64): Result<Books> {
    var inTransit :- CheckedAdd64(b.pool, b.processed);
    var incoming :- CheckedSub(balance, inTransit, ArithmeticUnderflow);
    var toRoute :- CheckedSub(incoming, rent, ArithmeticUnderflow);
    ToPool(b, toRoute)
  }

  /** The base groups from `g` on take their fractions of the pool. */
  function SplitBase(b: Books, fees: Fees, rewards: U64, g: nat): Result<Books>
    requires g <= FEE_GROUP_COUNT
    decreases FEE_GROUP_COUNT - g
  {
    if g == FEE_GROUP_COUNT then Ok(b)
    else
      var share :- CheckedShare(rewards, fees.base[g], fees.Total());
      var b1 :- FromPool(b, share);
      var b2 :- ToBase(b1, g, share);
      SplitBase(b2, fees, rewards, g + 1)
  }

  function SplitNcn(b: Books, fees: Fees, rewards: U64, g: nat): Result<Books>
    requires g <= FEE_GROUP_COUNT
    decreases FEE_GROUP_COUNT - g
  {
    if g == FEE_GROUP_COUNT then Ok(b)
    else
      var share :- CheckedShare(rewards, fees.ncn[g], fees.Total());
      var b1 :- FromPool(b, share);
      var b2 :- ToNcn(b1, g, share);
      SplitNcn(b2, fees, rewards, g + 1)
  }

  /** `route_reward_pool`: fractions of what the pool held at the start; the DAO gets any remainder. */
  function RouteRewardPool(b: Books, fees: Fees): Result<Books> {
    var b1 :- SplitBase(b, fees, b.pool, 0);
    var b2 :- SplitNcn(b1, fees, b.pool, 0);
    var b3 :- FromPool(b2, b2.pool);
    ToBase(b3, DAO, b2.pool)
  }

  /** One winning vote takes its fraction of what its group started with. */
  function PayVote(b: Books, win: BallotTally, vote: OperatorVote, g: Group, rewards: U64): Result<Books> {
    var share :- CheckedShare(rewards, vote.weights.groups[g], win.weights.groups[g]);
    var b' :- FromNcn(b, g, share);
    ToRoute(b', g, vote.operator, share)
  }

  /** The DAO gets what flooring left in the group. */
  function SweepGroup(b: Books, g: Group): Result<Books> {
    var b' :- FromNcn(b, g, b.ncn[g]);
    ToBase(b', DAO, b.ncn[g])
  }

  datatype Outcome = Finished(books: Books, iterations: nat) | Paused(books: Books, cursor: Cursor)

  /** The inner loop: winning votes from slot `v` on, at most `max` of them in this call. */
  function RouteVotes(b: Books, win: BallotTally, votes: VoteTable, g: Group, v: nat, rewards: U64,
                      iterations: nat, max: nat): Result<Outcome>
    decreases |votes| - v
  {
    if v >= |votes| then Ok(Finished(b, iterations))
    else if votes[v].ballotIndex != win.index then RouteVotes(b, win, votes, g, v + 1, rewards, iterations, max)
    else if iterations >= U16_MAX then Err(ArithmeticOverflow)
    else if iterations + 1 > max then Ok(Paused(b, Cursor(g, v, rewards)))
    else
      var b' :- PayVote(b, win, votes[v], g, rewards);
      RouteVotes(b', win, votes, g, v + 1, rewards, iterations + 1, max)
  }

  /** What a group starts with: the saved amount when a run is resumed in it. */
  function StartingRewards(b: Books, g: Group, saved: U64): U64 {
    if saved > 0 then saved else b.ncn[g]
  }

  /** The outer loop: fee groups from `g` on. */
  function RouteGroups(b: Books, win: BallotTally, votes: VoteTable, g: nat, v: nat, saved: U64,
                       iterations: nat, max: nat): Result<(Books, Cursor)>
    decreases FEE_GROUP_COUNT - g
  {
    if g >= FEE_GROUP_COUNT then Ok((b, IDLE))
    else
      var rewards := StartingRewards(b, g, saved);
      if rewards == 0 then RouteGroups(b, win, votes, g + 1, v, 0, iterations, max)
      else
        var outcome :- RouteVotes(b, win, votes, g, v, rewards, iterations, max);
        match outcome
        case Paused(b', cursor) => Ok((b', cursor))
        case Finished(b', iterations') =>
          var b'' :- SweepGroup(b', g);
          RouteGroups(b'', win, votes, g + 1, 0, 0, iterations', max)
  }

  /** Where the next call starts: at the saved position, or from the beginning. */
  function ResumePoint(r: Router): (nat, nat, U64) {
    if r.StillRouting() then (r.cursor.group, r.cursor.vote, r.cursor.rewards) else (0, 0, 0)
  }

  function AtLeastOne(maxIterations: U16): nat {
    if maxIterations == 0 then 1 else maxIterations
  }

  /** `route_ncn_fee_group_rewards`: one call, resuming where the last one stopped. */
  function RouteNcnFeeGroupRewards(r: Router, box: Box, maxIterations: U16): Result<Router> {
    var win :- GetWinningTally(box);
    var (g, v, saved) := ResumePoint(r);
    var (b, cursor) :- RouteGroups(r.books, win, box.votes, g, v, saved, 0, AtLeastOne(maxIterations));
    Ok(Router(b, cursor))
  }

  // ------------------------------------------------------------------
  // Paying out
  // ------------------------------------------------------------------

  function DistributeBase(b: Books, group: Group): Result<(Books, U64)> {
    var rewards := b.base[group];
    var processed :- CheckedSub(b.processed, rewards, ArithmeticUnderflow);
    Ok((b.(base := b.base[group := 0], processed := processed), rewards))
  }

  function DistributeRoute(b: Books, group: Group, operator: Key): Result<(Books, U64)> {
    var r := FindRoute(b.routes, operator, 0);
    if r == |b.routes| then Err(OperatorRewardNotFound)
    else
      var rewards := b.routes[r].rewards[group];
      var processed :- CheckedSub(b.processed, rewards, ArithmeticUnderflow);
      var routes := b.routes[r := b.routes[r].(rewards := b.routes[r].rewards[group := 0])];
      Ok((b.(routes := routes, processed := processed), rewards))
  }
}
