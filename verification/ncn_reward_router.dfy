/** `NcnRewardRouter` as the program holds it. */
module NcnRewardRouterAccount {
  import opened Common
  import opened FeesSpec
  import opened NcnRewardRouterSpec
  import Snapshots = EpochSnapshotAccounts
  import Spec = NcnRewardRouterSpec
  import Base = BaseRewardRouterSpec

  class NcnRewardRouter {
    const group: Group
    var totalRewards: U64
    var rewardPool: U64
    var rewardsProcessed: U64
    var operatorRewards: U64
    var lastRewards: U64
    var lastSlot: U16
    const routes: array<VaultRoute>

    ghost predicate Shaped() {
      routes.Length == MAX_VAULTS
    }

    ghost function State(): Router
      requires Shaped()
      reads this, routes
    {
      Router(Books(totalRewards, rewardPool, rewardsProcessed, operatorRewards, routes[..]),
             Cursor(lastRewards, lastSlot))
    }

    constructor (group: Group)
      ensures Shaped() && fresh(routes) && this.group == group
      ensures State() == NEW_ROUTER
    {
      this.group := group;
      totalRewards, rewardPool, rewardsProcessed, operatorRewards := 0, 0, 0, 0;
      lastRewards, lastSlot := U64_MAX, U16_MAX;
      routes := new VaultRoute[MAX_VAULTS](_ => EMPTY_ROUTE);
      new;
      assert routes[..] == NEW_BOOKS.routes;
    }

    method StillRouting() returns (still: bool)
      requires Shaped()
      ensures still == State().StillRouting()
    {
      return lastRewards != U64_MAX || lastSlot != U16_MAX;
    }

    method RouteFromRewardPool(amount: U64) returns (r: Result<()>)
      requires Shaped()
      modifies this`rewardPool, this`rewardsProcessed
      ensures match FromPool(old(State()).books, amount)
        case Ok(b) => r.Ok? && State() == old(State()).(books := b)
        case Err(e) => r == Err(e)
    {
      if amount == 0 {
        return Ok(());
      }
      rewardPool :- CheckedSub(rewardPool, amount, ArithmeticUnderflow);
      rewardsProcessed :- CheckedAdd64(rewardsProcessed, amount);
      return Ok(());
    }

    method RouteToOperatorRewards(amount: U64) returns (r: Result<()>)
      requires Shaped()
      modifies this`operatorRewards
      ensures match ToOperator(old(State()).books, amount)
        case Ok(b) => r.Ok? && State() == old(State()).(books := b)
        case Err(e) => r == Err(e)
    {
      if amount == 0 {
        return Ok(());
      }
      operatorRewards :- CheckedAdd64(operatorRewards, amount);
      return Ok(());
    }

    method RouteToVaultRewardRoute(vault: Key, amount: U64) returns (r: Result<()>)
      requires Shaped()
      modifies routes
      ensures match ToVault(old(State()).books, vault, amount)
        case Ok(b) => r.Ok? && State() == old(State()).(books := b)
        case Err(e) => r == Err(e)
    {
      if amount == 0 {
        return Ok(());
      }
      ghost var table := routes[..];
      for i := 0 to routes.Length
        invariant routes[..] == table
        invariant FindRoute(table, vault, i) == FindRoute(table, vault, 0)
      {
        if routes[i].vault == vault {
          var sum :- CheckedAdd64(routes[i].rewards, amount);
          routes[i] := routes[i].(rewards := sum);
          assert routes[..] == table[i := routes[i]];
          return Ok(());
        }
      }
      for i := 0 to routes.Length
        invariant routes[..] == table
        invariant FindRoute(table, DEFAULT_KEY, i) == FindRoute(table, DEFAULT_KEY, 0)
      {
        if routes[i].vault == DEFAULT_KEY {
          routes[i] := VaultRoute(vault, amount);
          assert routes[..] == table[i := routes[i]];
          return Ok(());
        }
      }
      return Err(OperatorRewardListFull);
    }

    method RouteIncomingRewards(rent: U64, balance: U64) returns (r: Result<()>)
      requires Shaped()
      modifies this`totalRewards, this`rewardPool
      ensures match RouteIncoming(old(State()).books, rent, balance)
        case Ok(b) => r.Ok? && State() == old(State()).(books := b)
        case Err(e) => r == Err(e)
    {
      var inTransit :- CheckedAdd64(rewardPool, rewardsProcessed);
      var incoming :- CheckedSub(balance, inTransit, ArithmeticUnderflow);
      var toRoute :- CheckedSub(incoming, rent, ArithmeticUnderflow);
      if toRoute == 0 {
        return Ok(());
      }
      totalRewards :- CheckedAdd64(totalRewards, toRoute);
      rewardPool := rewardPool + toRoute;  // cannot overflow: the balance covers pool and incoming
      return Ok(());
    }

    method RouteOperatorRewards(snapshot: Snapshots.OperatorSnapshot) returns (r: Result<()>)
      requires Shaped() && snapshot.Shaped()
      modifies this`rewardPool, this`rewardsProcessed, this`operatorRewards
      ensures match RouteOperator(old(State()).books, snapshot.State())
        case Ok(b) => r.Ok? && State() == old(State()).(books := b)
        case Err(e) => r == Err(e)
    {
      var share :- Base.CheckedShare(rewardPool, snapshot.feeBps, MAX_BPS);
      var _ :- RouteFromRewardPool(share);
      r := RouteToOperatorRewards(share);
    }

    /** One vault's share leaves the pool and enters its route. */
    method PayVault(snapshot: Snapshots.OperatorSnapshot, i: nat, rewards: U64) returns (r: Result<()>)
      requires Shaped() && snapshot.Shaped() && i < MAX_VAULTS
      modifies this`rewardPool, this`rewardsProcessed, routes
      ensures match Spec.PayVault(old(State()).books, snapshot.State(), group, i, rewards)
        case Ok(b) => r.Ok? && State() == old(State()).(books := b)
        case Err(e) => r == Err(e)
    {
      var delegation := snapshot.delegations[i];
      var share :- VaultShare(rewards, delegation.weights.groups[group], snapshot.weights.groups[group]);
      var _ :- RouteFromRewardPool(share);
      r := RouteToVaultRewardRoute(delegation.vault, share);
    }

    /** The loop over the delegations: it finishes, or saves its position and pauses. */
    method RouteVaults(snapshot: Snapshots.OperatorSnapshot, start: nat, rewards: U64, maxIterations: nat)
      returns (r: Result<bool>)
      requires Shaped() && snapshot.Shaped()
      modifies this`rewardPool, this`rewardsProcessed, this`lastRewards, this`lastSlot, routes
      ensures match Spec.RouteVaults(old(State()).books, snapshot.State(), group, start, rewards, 0, maxIterations)
        case Ok(Finished(b)) => r == Ok(true) && State() == old(State()).(books := b)
        case Ok(Paused(b, cursor)) => r == Ok(false) && State() == Router(b, cursor)
        case Err(e) => r == Err(e)
    {
      var iterations: nat := 0;
      ghost var o := snapshot.State();
      ghost var cursor := State().cursor;
      ghost var outcome := Spec.RouteVaults(State().books, o, group, start, rewards, 0, maxIterations);
      var i := start;
      while i < snapshot.delegations.Length
        invariant State().cursor == cursor
        invariant Spec.RouteVaults(State().books, o, group, i, rewards, iterations, maxIterations) == outcome
      {
        if iterations >= U16_MAX {
          return Err(ArithmeticOverflow);
        }
        iterations := iterations + 1;
        if iterations > maxIterations {
          lastRewards, lastSlot := rewards, i;
          return Ok(false);
        }
        var paid := PayVault(snapshot, i, rewards);
        if paid.Err? {
          return Err(paid.error);
        }
        i := i + 1;
      }
      return Ok(true);
    }

    method RouteRewardPool(snapshot: Snapshots.OperatorSnapshot, maxIterations: U16) returns (r: Result<()>)
      requires Shaped() && snapshot.Shaped()
      modifies this, routes
      ensures match Spec.RouteRewardPool(old(State()), snapshot.State(), group, maxIterations)
        case Ok(s) => r.Ok? && State() == s
        case Err(e) => r == Err(e)
    {
      var rewards, start := rewardPool, 0;
      var still := StillRouting();
      if still {
        rewards, start := lastRewards, lastSlot;
      }
      if rewards == 0 {
        return Ok(());
      }
      var finished :- RouteVaults(snapshot, start, rewards, if maxIterations == 0 then 1 else maxIterations);
      if finished {
        lastRewards, lastSlot := U64_MAX, U16_MAX;
        var leftover := rewardPool;
        var _ :- RouteFromRewardPool(leftover);
        var _ :- RouteToOperatorRewards(leftover);
      }
      return Ok(());
    }

    method DistributeOperatorRewards() returns (r: Result<U64>)
      requires Shaped()
      modifies this`operatorRewards, this`rewardsProcessed
      ensures match DistributeOperator(old(State()).books)
        case Ok((b, amount)) => r == Ok(amount) && State() == old(State()).(books := b)
        case Err(e) => r == Err(e)
    {
      var rewards := operatorRewards;
      operatorRewards := 0;
      rewardsProcessed :- CheckedSub(rewardsProcessed, rewards, ArithmeticUnderflow);
      return Ok(rewards);
    }

    method DistributeVaultRewardRoute(vault: Key) returns (r: Result<U64>)
      requires Shaped()
      modifies this`rewardsProcessed, routes
      ensures match DistributeVault(old(State()).books, vault)
        case Ok((b, amount)) => r == Ok(amount) && State() == old(State()).(books := b)
        case Err(e) => r == Err(e)
    {
      ghost var table := routes[..];
      for i := 0 to routes.Length
        invariant routes[..] == table && rewardsProcessed == old(rewardsProcessed)
        invariant FindRoute(table, vault, i) == FindRoute(table, vault, 0)
      {
        if routes[i].vault == vault {
          var rewards := routes[i].rewards;
          routes[i] := routes[i].(rewards := 0);
          assert routes[..] == table[i := routes[i]];
          rewardsProcessed :- CheckedSub(rewardsProcessed, rewards, ArithmeticUnderflow);
          return Ok(rewards);
        }
      }
      return Err(OperatorRewardNotFound);
    }
  }
}
