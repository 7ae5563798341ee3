/** `BaseRewardRouter` as the program holds it: buckets and routes are arrays written in place, and
    an interrupted run leaves its position in the account. */
module BaseRewardRouterAccount {
  import opened Common
  import opened BallotBoxSpec
  import opened BallotBoxAccount
  import opened FeesSpec
  import FeesAccount
  import opened BaseRewardRouterSpec

  class BaseRewardRouter {
    var totalRewards: U64
    var rewardPool: U64
    var rewardsProcessed: U64
    var lastGroup: nat
    var lastVote: U16
    var lastRewards: U64
    const baseRewards: array<U64>
    const ncnRewards: array<U64>
    const routes: array<Route>

    ghost predicate Shaped() {
      && baseRewards.Length == ncnRewards.Length == FEE_GROUP_COUNT
      && routes.Length == MAX_OPERATORS
      && baseRewards != ncnRewards
    }

    ghost function State(): Router
      requires Shaped()
      reads this, baseRewards, ncnRewards, routes
    {
      Router(Books(totalRewards, rewardPool, rewardsProcessed, baseRewards[..], ncnRewards[..], routes[..]),
             Cursor(lastGroup, lastVote, lastRewards))
    }

    constructor ()
      ensures Shaped() && fresh(baseRewards) && fresh(ncnRewards) && fresh(routes)
      ensures State() == NEW_ROUTER
    {
      totalRewards, rewardPool, rewardsProcessed := 0, 0, 0;
      lastGroup, lastVote, lastRewards := NO_GROUP, U16_MAX, U64_MAX;
      baseRewards := new U64[FEE_GROUP_COUNT](_ => 0);
      ncnRewards := new U64[FEE_GROUP_COUNT](_ => 0);
      routes := new Route[MAX_OPERATORS](_ => EMPTY_ROUTE);
      new;
      assert baseRewards[..] == NO_AMOUNTS && ncnRewards[..] == NO_AMOUNTS;
      assert routes[..] == NEW_BOOKS.routes;
    }

    method StillRouting() returns (still: bool)
      requires Shaped()
      ensures still == State().StillRouting()
    {
      return lastGroup != NO_GROUP || lastVote != U16_MAX || lastRewards != U64_MAX;
    }

    method RouteFromRewardPool(amount: U64) returns (r: Result<()>)
      requires Shaped()
      modifies this`rewardPool, this`rewardsProcessed
      ensures match FromPool(old(State()).books, amount)
        case Ok(b) => r.Ok? && State() == old(State()).(books := b)
        case Err(e) => r == Err(e)
    {
      if amount == 0 {
        return Ok(());
      }
      rewardPool :- CheckedSub(rewardPool, amount, ArithmeticUnderflow);
      rewardsProcessed :- CheckedAdd64(rewardsProcessed, amount);
      return Ok(());
    }

    method RouteToBaseFeeGroupRewards(group: Group, amount: U64) returns (r: Result<()>)
      requires Shaped()
      modifies baseRewards
      ensures match ToBase(old(State()).books, group, amount)
        case Ok(b) => r.Ok? && State() == old(State()).(books := b)
        case Err(e) => r == Err(e)
    {
      if amount == 0 {
        assert baseRewards[..][group := baseRewards[group]] == baseRewards[..];
        return Ok(());
      }
      baseRewards[group] :- CheckedAdd64(baseRewards[group], amount);
      assert baseRewards[..] == old(baseRewards[..])[group := baseRewards[group]];
      return Ok(());
    }

    method RouteToNcnFeeGroupRewards(group: Group, amount: U64) returns (r: Result<()>)
      requires Shaped()
      modifies ncnRewards
      ensures match ToNcn(old(State()).books, group, amount)
        case Ok(b) => r.Ok? && State() == old(State()).(books := b)
        case Err(e) => r == Err(e)
    {
      if amount == 0 {
        assert ncnRewards[..][group := ncnRewards[group]] == ncnRewards[..];
        return Ok(());
      }
      ncnRewards[group] :- CheckedAdd64(ncnRewards[group], amount);
      assert ncnRewards[..] == old(ncnRewards[..])[group := ncnRewards[group]];
      return Ok(());
    }

    method RouteFromNcnFeeGroupRewards(group: Group, amount: U64) returns (r: Result<()>)
      requires Shaped()
      modifies ncnRewards
      ensures match FromNcn(old(State()).books, group, amount)
        case Ok(b) => r.Ok? && State() == old(State()).(books := b)
        case Err(e) => r == Err(e)
    {
      if amount == 0 {
        assert ncnRewards[..][group := ncnRewards[group]] == ncnRewards[..];
        return Ok(());
      }
      ncnRewards[group] :- CheckedSub(ncnRewards[group], amount, ArithmeticUnderflow);
      assert ncnRewards[..] == old(ncnRewards[..])[group := ncnRewards[group]];
      return Ok(());
    }

    method RouteToNcnFeeGroupRewardRoute(group: Group, operator: Key, amount: U64) returns (r: Result<()>)
      requires Shaped()
      modifies routes
      ensures match ToRoute(old(State()).books, group, operator, amount)
        case Ok(b) => r.Ok? && State() == old(State()).(books := b)
        case Err(e) => r == Err(e)
    {
      if amount == 0 {
        return Ok(());
      }
      ghost var table := routes[..];
      for i := 0 to routes.Length
        invariant routes[..] == table
        invariant FindRoute(table, operator, i) == FindRoute(table, operator, 0)
      {
        if routes[i].operator == operator {
          var sum :- CheckedAdd64(routes[i].rewards[group], amount);
          routes[i] := routes[i].(rewards := routes[i].rewards[group := sum]);
          assert routes[..] == table[i := routes[i]];
          return Ok(());
        }
      }
      for i := 0 to routes.Length
        invariant routes[..] == table
        invariant FindRoute(table, DEFAULT_KEY, i) == FindRoute(table, DEFAULT_KEY, 0)
      {
        if routes[i].operator == DEFAULT_KEY {
          routes[i] := Route(operator, NO_AMOUNTS[group := amount]);
          assert routes[..] == table[i := routes[i]];
          return Ok(());
        }
      }
      return Err(OperatorRewardListFull);
    }

    method RouteIncomingRewards(rent: U64, balance: U64) returns (r: Result<()>)
      requires Shaped()
      modifies this`totalRewards, this`rewardPool
      ensures match RouteIncoming(old(State()).books, rent, balance)
        case Ok(b) => r.Ok? && State() == old(State()).(books := b)
        case Err(e) => r == Err(e)
    {
      var inTransit :- CheckedAdd64(rewardPool, rewardsProcessed);
      var incoming :- CheckedSub(balance, inTransit, ArithmeticUnderflow);
      var toRoute :- CheckedSub(incoming, rent, ArithmeticUnderflow);
      if toRoute == 0 {
        return Ok(());
      }
      totalRewards :- CheckedAdd64(totalRewards, toRoute);
      rewardPool := rewardPool + toRoute;  // cannot overflow: the balance covers pool and incoming
      return Ok(());
    }

    method RouteRewardPool(fees: Fees) returns (r: Result<()>)
      requires Shaped()
      modifies this, baseRewards, ncnRewards
      ensures match BaseRewardRouterSpec.RouteRewardPool(old(State()).books, fees)
        case Ok(b) => r.Ok? && State() == old(State()).(books := b)
        case Err(e) => r == Err(e)
    {
      ghost var cursor := State().cursor;
      var rewards := rewardPool;
      var total := FeesAccount.TotalFeesBps(fees);
      ghost var split := SplitBase(State().books, fees, rewards, 0);
      for g := 0 to FEE_GROUP_COUNT
        invariant State().cursor == cursor
        invariant SplitBase(State().books, fees, rewards, g) == split
      {
        var share :- CheckedShare(rewards, fees.base[g], total);
        var _ :- RouteFromRewardPool(share);
        var _ :- RouteToBaseFeeGroupRewards(g, share);
      }
      split := SplitNcn(State().books, fees, rewards, 0);
      for g := 0 to FEE_GROUP_COUNT
        invariant State().cursor == cursor
        invariant SplitNcn(State().books, fees, rewards, g) == split
      {
        var share :- CheckedShare(rewards, fees.ncn[g], total);
        var _ :- RouteFromRewardPool(share);
        var _ :- RouteToNcnFeeGroupRewards(g, share);
      }
      var leftover := rewardPool;
      var _ :- RouteFromRewardPool(leftover);
      r := RouteToBaseFeeGroupRewards(DAO, leftover);
    }

    /** The DAO takes what is left in a group. */
    method SweepGroup(group: Group) returns (r: Result<()>)
      requires Shaped()
      modifies baseRewards, ncnRewards
      ensures match BaseRewardRouterSpec.SweepGroup(old(State()).books, group)
        case Ok(b) => r.Ok? && State() == old(State()).(books := b)
        case Err(e) => r == Err(e)
    {
      var leftover := ncnRewards[group];
      var emptied := RouteFromNcnFeeGroupRewards(group, leftover);
      assert emptied.Ok?;
      r := RouteToBaseFeeGroupRewards(DAO, leftover);
    }

    /** The share of one winning vote leaves the group and enters the operator's route. */
    method PayVote(win: BallotTally, vote: OperatorVote, group: Group, rewards: U64) returns (r: Result<()>)
      requires Shaped()
      modifies ncnRewards, routes
      ensures match BaseRewardRouterSpec.PayVote(old(State()).books, win, vote, group, rewards)
        case Ok(b) => r.Ok? && State() == old(State()).(books := b)
        case Err(e) => r == Err(e)
    {
      var share :- CheckedShare(rewards, vote.weights.groups[group], win.weights.groups[group]);
      var _ :- RouteFromNcnFeeGroupRewards(group, share);
      r := RouteToNcnFeeGroupRewardRoute(group, vote.operator, share);
    }

    /** The inner loop over the votes: it finishes the group, or saves its position and pauses. */
    method RouteVotes(ballotBox: BallotBox, win: BallotTally, group: Group, start: nat, rewards: U64,
                      iterationsSoFar: nat, maxIterations: nat)
      returns (r: Result<bool>, iterations: nat)
      requires Shaped() && ballotBox.Shaped()
      modifies this`lastGroup, this`lastVote, this`lastRewards, ncnRewards, routes
      ensures match BaseRewardRouterSpec.RouteVotes(old(State()).books, win, ballotBox.operatorVotes[..], group, start,
                                                    rewards, iterationsSoFar, maxIterations)
        case Ok(Finished(b, n)) => r == Ok(true) && State() == old(State()).(books := b) && iterations == n
        case Ok(Paused(b, cursor)) => r == Ok(false) && State() == Router(b, cursor)
        case Err(e) => r == Err(e)
    {
      iterations := iterationsSoFar;
      ghost var votes := ballotBox.operatorVotes[..];
      ghost var cursor := State().cursor;
      ghost var outcome := BaseRewardRouterSpec.RouteVotes(State().books, win, votes, group, start, rewards, iterations,
                                                           maxIterations);
      var v := start;
      while v < ballotBox.operatorVotes.Length
        invariant State().cursor == cursor
        invariant outcome == BaseRewardRouterSpec.RouteVotes(State().books, win, votes, group, v, rewards, iterations,
                                                             maxIterations)
      {
        var vote := ballotBox.operatorVotes[v];
        if vote.ballotIndex == win.index {
          if iterations >= U16_MAX {
            return Err(ArithmeticOverflow), iterations;
          }
          iterations := iterations + 1;
          if iterations > maxIterations {
            lastGroup, lastVote, lastRewards := group, v, rewards;
            return Ok(false), iterations;
          }
          var paid := PayVote(win, vote, group, rewards);
          if paid.Err? {
            return Err(paid.error), iterations;
          }
        }
        v := v + 1;
      }
      return Ok(true), iterations;
    }

    /** The outer loop over the fee groups, up to the end or to the first pause. */
    method RouteGroups(ballotBox: BallotBox, win: BallotTally, startGroup: nat, startVote: nat, startRewards: U64,
                       maxIterations: nat)
      returns (r: Result<()>)
      requires Shaped() && ballotBox.Shaped()
      modifies this`lastGroup, this`lastVote, this`lastRewards, baseRewards, ncnRewards, routes
      ensures match BaseRewardRouterSpec.RouteGroups(old(State()).books, win, ballotBox.operatorVotes[..], startGroup,
                                                     startVote, startRewards, 0, maxIterations)
        case Ok((b, cursor)) => r.Ok? && State() == Router(b, cursor)
        case Err(e) => r == Err(e)
    {
      var g, v, saved := startGroup, startVote, startRewards;
      var iterations := 0;
      ghost var votes := ballotBox.operatorVotes[..];
      ghost var cursor := State().cursor;
      ghost var outcome := BaseRewardRouterSpec.RouteGroups(State().books, win, votes, g, v, saved, 0, maxIterations);
      while g < FEE_GROUP_COUNT
        invariant State().cursor == cursor
        invariant BaseRewardRouterSpec.RouteGroups(State().books, win, votes, g, v, saved, iterations, maxIterations)
             == outcome
      {
        var rewards := if saved > 0 then saved else ncnRewards[g];
        saved := 0;
        if rewards != 0 {
          var finished;
          finished, iterations := RouteVotes(ballotBox, win, g, v, rewards, iterations, maxIterations);
          if finished.Err? {
            return Err(finished.error);
          }
          if !finished.value {
            return Ok(());
          }
          var _ :- SweepGroup(g);
          v := 0;
        }
        g := g + 1;
      }
      lastGroup, lastVote, lastRewards := NO_GROUP, U16_MAX, U64_MAX;
      return Ok(());
    }

    method RouteNcnFeeGroupRewards(ballotBox: BallotBox, maxIterations: U16) returns (r: Result<()>)
      requires Shaped() && ballotBox.Shaped()
      modifies this`lastGroup, this`lastVote, this`lastRewards, baseRewards, ncnRewards, routes
      ensures match BaseRewardRouterSpec.RouteNcnFeeGroupRewards(old(State()), ballotBox.State(), maxIterations)
        case Ok(s) => r.Ok? && State() == s
        case Err(e) => r == Err(e)
    {
      var win :- ballotBox.GetWinningBallotTally();
      var g, v, saved := 0, 0, 0;
      var still := StillRouting();
      if still {
        g, v, saved := lastGroup, lastVote, lastRewards;
      }
      r := RouteGroups(ballotBox, win, g, v, saved, if maxIterations == 0 then 1 else maxIterations);
    }

    method DistributeBaseFeeGroupRewards(group: Group) returns (r: Result<U64>)
      requires Shaped()
      modifies this`rewardsProcessed, baseRewards
      ensures match DistributeBase(old(State()).books, group)
        case Ok((b, amount)) => r == Ok(amount) && State() == old(State()).(books := b)
        case Err(e) => r == Err(e)
    {
      var rewards := baseRewards[group];
      baseRewards[group] := 0;
      assert baseRewards[..] == old(baseRewards[..])[group := 0];
      rewardsProcessed :- CheckedSub(rewardsProcessed, rewards, ArithmeticUnderflow);
      return Ok(rewards);
    }

    method DistributeNcnFeeGroupRewardRoute(group: Group, operator: Key) returns (r: Result<U64>)
      requires Shaped()
      modifies this`rewardsProcessed, routes
      ensures match DistributeRoute(old(State()).books, group, operator)
        case Ok((b, amount)) => r == Ok(amount) && State() == old(State()).(books := b)
        case Err(e) => r == Err(e)
    {
      ghost var table := routes[..];
      for i := 0 to routes.Length
        invariant routes[..] == table && rewardsProcessed == old(rewardsProcessed)
        invariant FindRoute(table, operator, i) == FindRoute(table, operator, 0)
      {
        if routes[i].operator == operator {
          var rewards := routes[i].rewards[group];
          routes[i] := routes[i].(rewards := routes[i].rewards[group := 0]);
          assert routes[..] == table[i := routes[i]];
          rewardsProcessed :- CheckedSub(rewardsProcessed, rewards, ArithmeticUnderflow);
          return Ok(rewards);
        }
      }
      return Err(OperatorRewardNotFound);
    }
  }
}
