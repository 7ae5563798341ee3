/** The per-operator, per-group reward router as a value (core/src/ncn_reward_router.rs). */
module NcnRewardRouterSpec {
  import opened Common
  import opened FlooredShares
  import opened FeesSpec
  import opened EpochSnapshotSpec
  import Base = BaseRewardRouterSpec

  datatype VaultRoute = VaultRoute(vault: Key, rewards: U64)

  const EMPTY_ROUTE := VaultRoute(DEFAULT_KEY, 0)

  type VaultRouteTable = s: seq<VaultRoute> | |s| == MAX_VAULTS witness Filled(MAX_VAULTS, EMPTY_ROUTE)

  datatype Books = Books(total: U64, pool: U64, processed: U64, operatorRewards: U64, routes: VaultRouteTable)

  /** The amount an interrupted run splits, and the delegation slot it goes on with. */
  datatype Cursor = Cursor(rewards: U64, slot: U16)

  const IDLE := Cursor(U64_MAX, U16_MAX)

  datatype Router = Router(books: Books, cursor: Cursor) {
    predicate StillRouting() {
      cursor.rewards != U64_MAX || cursor.slot != U16_MAX
    }
  }

  const NEW_BOOKS := Books(0, 0, 0, 0, Filled(MAX_VAULTS, EMPTY_ROUTE))
  const NEW_ROUTER := Router(NEW_BOOKS, IDLE)

  function FromPool(b: Books, amount: U64): Result<Books> {
    if amount == 0 then Ok(b)
    else
      var pool :- CheckedSub(b.pool, amount, ArithmeticUnderflow);
      var processed :- CheckedAdd64(b.processed, amount);
      Ok(b.(pool := pool, processed := processed))
  }

  function ToOperator(b: Books, amount: U64): Result<Books> {
    var sum :- CheckedAdd64(b.operatorRewards, amount);
    Ok(b.(operatorRewards := sum))
  }

  function FindRoute(routes: seq<VaultRoute>, vault: Key, i: nat): (r: nat)
    requires i <= |routes|
    ensures i <= r <= |routes|
    ensures r < |routes| ==> routes[r].vault == vault
    ensures forall j :: i <= j < r ==> routes[j].vault != vault
    decreases |routes| - i
  {
    if i == |routes| || routes[i].vault == vault then i else FindRoute(routes, vault, i + 1)
  }

  function ToVault(b: Books, vault: Key, amount: U64): Result<Books> {
    if amount == 0 then Ok(b)
    else
      var r := FindRoute(b.routes, vault, 0);
      if r < |b.routes| then
        var sum :- CheckedAdd64(b.routes[r].rewards, amount);
        Ok(b.(routes := b.routes[r := b.routes[r].(rewards := sum)]))
      else
        var f := FindRoute(b.routes, DEFAULT_KEY, 0);
        if f == |b.routes| then Err(OperatorRewardListFull)
        else Ok(b.(routes := b.routes[f := VaultRoute(vault, amount)]))
  }

  function RouteIncoming(b: Books, rent: U64, balance: U64): Result<Books> {
    var inTransit :- CheckedAdd64(b.pool, b.processed);
    var incoming :- CheckedSub(balance, inTransit, ArithmeticUnderflow);
    var toRoute :- CheckedSub(incoming, rent, ArithmeticUnderflow);
    if toRoute == 0 then Ok(b)
    else
      var total :- CheckedAdd64(b.total, toRoute);
      var pool :- CheckedAdd64(b.pool, toRoute);
      Ok(b.(total := total, pool := pool))
  }

  /** `route_operator_rewards`: the operator's own fee comes off the pool first. */
  function RouteOperator(b: Books, o: OperatorSnapshot): Result<Books> {
    var share :- Base.CheckedShare(b.pool, o.feeBps, MAX_BPS);
    var b' :- FromPool(b, share);
    ToOperator(b', share)
  }

  /** `calculate_vault_reward`: nothing is split when the operator has no weight in the group. */
  function VaultShare(amount: U64, weight: nat, total: nat): Result<U64> {
    if total == 0 || amount == 0 then Ok(0)
    else if Share(amount, weight, total) > U64_MAX then Err(CastToU64)
    else Ok(Share(amount, weight, total))
  }

  function PayVault(b: Books, o: OperatorSnapshot, group: Group, i: nat, rewards: U64): Result<Books>
    requires i < MAX_VAULTS
  {
    var share :- VaultShare(rewards, o.delegations[i].weights.groups[group], o.weights.groups[group]);
    var b' :- FromPool(b, share);
    ToVault(b', o.delegations[i].vault, share)
  }

  datatype Outcome = Finished(books: Books) | Paused(books: Books, cursor: Cursor)

  /** The loop over all delegation slots, empty ones included, at most `max` of them in this call. */
  function RouteVaults(b: Books, o: OperatorSnapshot, group: Group, i: nat, rewards: U64, iterations: nat,
                       max: nat): Result<Outcome>
    decreases MAX_VAULTS - i
  {
    if i >= MAX_VAULTS then Ok(Finished(b))
    else if iterations >= U16_MAX then Err(ArithmeticOverflow)
    else if iterations + 1 > max then Ok(Paused(b, Cursor(rewards, i)))
    else
      var b' :- PayVault(b, o, group, i, rewards);
      RouteVaults(b', o, group, i + 1, rewards, iterations + 1, max)
  }

  function ResumePoint(r: Router): (U64, nat) {
    if r.StillRouting() then (r.cursor.rewards, r.cursor.slot) else (r.books.pool, 0)
  }

  /** The operator gets any remainder. */
  function Sweep(b: Books): Result<Books> {
    var b' :- FromPool(b, b.pool);
    ToOperator(b', b.pool)
  }

  /** `route_reward_pool`: one call, resuming where the last one stopped. */
  function RouteRewardPool(r: Router, o: OperatorSnapshot, group: Group, maxIterations: U16): Result<Router> {
    var (rewards, i) := ResumePoint(r);
    if rewards == 0 then Ok(r)
    else
      var outcome :- RouteVaults(r.books, o, group, i, rewards, 0, Base.AtLeastOne(maxIterations));
      match outcome
      case Paused(b, cursor) => Ok(Router(b, cursor))
      case Finished(b) =>
        var b' :- Sweep(b);
        Ok(Router(b', IDLE))
  }

  /** `route_ncn_rewards` on the router: new lamports only enter while no run is under way. */
  function RouteNcn(r: Router, o: OperatorSnapshot, group: Group, rent: U64, balance: U64,
                    maxIterations: U16): Result<Router> {
    var b :- if r.StillRouting() then Ok(r.books)
             else (var b1 :- RouteIncoming(r.books, rent, balance); RouteOperator(b1, o));
    RouteRewardPool(r.(books := b), o, group, maxIterations)
  }

  function DistributeOperator(b: Books): Result<(Books, U64)> {
    var processed :- CheckedSub(b.processed, b.operatorRewards, ArithmeticUnderflow);
    Ok((b.(operatorRewards := 0, processed := processed), b.operatorRewards))
  }

  function DistributeVault(b: Books, vault: Key): Result<(Books, U64)> {
    var r := FindRoute(b.routes, vault, 0);
    if r == |b.routes| then Err(OperatorRewardNotFound)
    else
      var processed :- CheckedSub(b.processed, b.routes[r].rewards, ArithmeticUnderflow);
      Ok((b.(routes := b.routes[r := b.routes[r].(rewards := 0)], processed := processed), b.routes[r].rewards))
  }
}

/** Chunk independence and progress of per-operator routing, on a fixed operator snapshot. */
module NcnRewardRouterChunks {
  import opened Common
  import opened FeesSpec
  import opened EpochSnapshotSpec
  import opened NcnRewardRouterSpec
  import BaseChunks = BaseRewardRouterChunks
  import Base = BaseRewardRouterSpec

  /** The loop without limit or counter. */
  function DrainVaults(b: Books, o: OperatorSnapshot, group: Group, i: nat, rewards: U64): Result<Books>
    decreases MAX_VAULTS - i
  {
    if i >= MAX_VAULTS then Ok(b)
    else
      var b' :- PayVault(b, o, group, i, rewards);
      DrainVaults(b', o, group, i + 1, rewards)
  }

  lemma {:induction false} RouteVaultsIsDrain(b: Books, o: OperatorSnapshot, group: Group, i: nat, rewards: U64,
                                              iterations: nat, max: nat)
    requires i <= MAX_VAULTS && iterations <= max <= U16_MAX && iterations <= i
    ensures match RouteVaults(b, o, group, i, rewards, iterations, max)
      case Err(e) => DrainVaults(b, o, group, i, rewards) == Err(e)
      case Ok(Finished(b')) => MAX_VAULTS - i <= max - iterations && DrainVaults(b, o, group, i, rewards) == Ok(b')
      case Ok(Paused(b', cursor)) =>
        && MAX_VAULTS - i > max - iterations
        && cursor == Cursor(rewards, i + (max - iterations))
        && DrainVaults(b', o, group, cursor.slot, rewards) == DrainVaults(b, o, group, i, rewards)
    decreases MAX_VAULTS - i
  {
    if i < MAX_VAULTS && iterations + 1 <= max {
      var paid := PayVault(b, o, group, i, rewards);
      if paid.Ok? {
        RouteVaultsIsDrain(paid.value, o, group, i + 1, rewards, iterations + 1, max);
      }
    }
  }

  /** A position a run can be in the middle of. */
  predicate InRun(r: Router) {
    r.StillRouting() ==> r.cursor.slot < MAX_VAULTS && r.cursor.rewards > 0
  }

  function SlotsAhead(r: Router): nat
    requires InRun(r)
  {
    var (rewards, i) := ResumePoint(r);
    if rewards == 0 then 0 else MAX_VAULTS - i
  }

  /** One call: it either finishes, exactly when the slots ahead fit the limit, or advances the saved
      slot by exactly the limit, at least one. */
  lemma {:induction false} CallProgress(r: Router, o: OperatorSnapshot, group: Group, maxIterations: U16)
    requires InRun(r) && RouteRewardPool(r, o, group, maxIterations).Ok?
    ensures var r' := RouteRewardPool(r, o, group, maxIterations).value;
      && InRun(r')
      && var steps := if maxIterations == 0 then 1 else maxIterations;
      && (r'.StillRouting() <==> steps < SlotsAhead(r))
      && (r'.StillRouting() ==> r'.cursor == Cursor(ResumePoint(r).0, ResumePoint(r).1 + steps))
  {
    var (rewards, i) := ResumePoint(r);
    if rewards != 0 {
      RouteVaultsIsDrain(r.books, o, group, i, rewards, 0, Base.AtLeastOne(maxIterations));
    }
  }

  /** Call after call with its own limit, until the router is no longer in the middle of routing. */
  function RouteCalls(r: Router, o: OperatorSnapshot, group: Group, limits: seq<U16>): Result<Router>
    decreases |limits|
  {
    if limits == [] then Ok(r)
    else
      var r' :- RouteRewardPool(r, o, group, limits[0]);
      if r'.StillRouting() then RouteCalls(r', o, group, limits[1..]) else Ok(r')
  }

  /** What one call leaves to a call with the largest limit. */
  lemma {:induction false} OneCallThenLargest(r: Router, o: OperatorSnapshot, group: Group, maxIterations: U16)
    requires InRun(r)
    ensures match RouteRewardPool(r, o, group, maxIterations)
      case Err(e) => RouteRewardPool(r, o, group, U16_MAX) == Err(e)
      case Ok(r') =>
        RouteRewardPool(r, o, group, U16_MAX)
        == if r'.StillRouting() then RouteRewardPool(r', o, group, U16_MAX) else Ok(r')
  {
    var (rewards, i) := ResumePoint(r);
    var one := RouteRewardPool(r, o, group, maxIterations);
    if rewards != 0 {
      RouteVaultsIsDrain(r.books, o, group, i, rewards, 0, Base.AtLeastOne(maxIterations));
      RouteVaultsIsDrain(r.books, o, group, i, rewards, 0, U16_MAX);
      if one.Ok? && one.value.StillRouting() {
        RouteVaultsIsDrain(one.value.books, o, group, one.value.cursor.slot, rewards, 0, U16_MAX);
      }
    }
  }

  /** Chunk independence: any limits that get the router to the end get it to exactly the state, or
      the error, of one call with the largest limit, and they do so exactly when they allow for the
      slots ahead. */
  lemma {:induction false} ChunkIndependence(r: Router, o: OperatorSnapshot, group: Group, limits: seq<U16>)
    requires InRun(r) && limits != []
    ensures match RouteCalls(r, o, group, limits)
      case Err(e) => RouteRewardPool(r, o, group, U16_MAX) == Err(e)
      case Ok(r') =>
        && (r'.StillRouting() <==> BaseChunks.Allowed(limits) < SlotsAhead(r))
        && (!r'.StillRouting() ==> RouteRewardPool(r, o, group, U16_MAX) == Ok(r'))
    decreases |limits|
  {
    OneCallThenLargest(r, o, group, limits[0]);
    var one := RouteRewardPool(r, o, group, limits[0]);
    if one.Ok? {
      CallProgress(r, o, group, limits[0]);
      if one.value.StillRouting() && limits[1..] != [] {
        ChunkIndependence(one.value, o, group, limits[1..]);
      }
    }
  }
}
