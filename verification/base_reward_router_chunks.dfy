/** Chunk independence of base routing: however a run is cut into calls, it ends where one call
    without a limit would have ended, and every call does exactly the work its limit allows. */
module BaseRewardRouterChunks {
  import opened Common
  import opened BallotBoxSpec
  import opened BaseRewardRouterSpec

  /** The inner loop without limit or counter. */
  function DrainVotes(b: Books, win: BallotTally, votes: VoteTable, g: nat, v: nat, rewards: U64): Result<Books>
    requires g < FEE_GROUP_COUNT
    decreases |votes| - v
  {
    if v >= |votes| then Ok(b)
    else if votes[v].ballotIndex != win.index then DrainVotes(b, win, votes, g, v + 1, rewards)
    else
      var b' :- PayVote(b, win, votes[v], g, rewards);
      DrainVotes(b', win, votes, g, v + 1, rewards)
  }

  /** The whole routing without limit, counter or cursor. */
  function DrainGroups(b: Books, win: BallotTally, votes: VoteTable, g: nat, v: nat, saved: U64): Result<Books>
    decreases FEE_GROUP_COUNT - g
  {
    if g >= FEE_GROUP_COUNT then Ok(b)
    else
      var rewards := StartingRewards(b, g, saved);
      if rewards == 0 then DrainGroups(b, win, votes, g + 1, v, 0)
      else
        var b' :- DrainVotes(b, win, votes, g, v, rewards);
        var b'' :- SweepGroup(b', g);
        DrainGroups(b'', win, votes, g + 1, 0, 0)
  }

  /** Winning votes from slot `v` on. */
  function VotesLeft(votes: seq<OperatorVote>, winner: U16, v: nat): nat
    decreases |votes| - v
  {
    if v >= |votes| then 0
    else (if votes[v].ballotIndex == winner then 1 else 0) + VotesLeft(votes, winner, v + 1)
  }

  /** Pairs of a non-empty fee group and a winning vote still to be paid. */
  function Work(b: Books, win: BallotTally, votes: VoteTable, g: nat, v: nat, saved: U64): nat
    decreases FEE_GROUP_COUNT - g
  {
    if g >= FEE_GROUP_COUNT then 0
    else if StartingRewards(b, g, saved) == 0 then Work(b, win, votes, g + 1, v, 0)
    else VotesLeft(votes, win.index, v) + Work(b, win, votes, g + 1, 0, 0)
  }

  lemma {:induction false} VotesLeftBound(votes: VoteTable, winner: U16, v: nat)
    ensures v <= |votes| ==> VotesLeft(votes, winner, v) <= |votes| - v
    ensures VotesLeft(votes, winner, v) <= |votes|
    decreases |votes| - v
  {
    if v < |votes| {
      VotesLeftBound(votes, winner, v + 1);
    }
  }

  /** With 8 groups and 256 votes the 16-bit iteration counter has room to spare. */
  lemma {:induction false} WorkBound(b: Books, win: BallotTally, votes: VoteTable, g: nat, v: nat, saved: U64)
    requires g <= FEE_GROUP_COUNT
    ensures Work(b, win, votes, g, v, saved) <= (FEE_GROUP_COUNT - g) * MAX_OPERATORS
    decreases FEE_GROUP_COUNT - g
  {
    if g < FEE_GROUP_COUNT {
      VotesLeftBound(votes, win.index, v);
      WorkBound(b, win, votes, g + 1, v, 0);
      WorkBound(b, win, votes, g + 1, 0, 0);
    }
  }

  /** Paying a vote touches no other group's bucket. */
  lemma {:induction false} PayVoteFrame(b: Books, win: BallotTally, vote: OperatorVote, g: nat, rewards: U64)
    requires g < FEE_GROUP_COUNT && PayVote(b, win, vote, g, rewards).Ok?
    ensures forall h :: 0 <= h < FEE_GROUP_COUNT && h != g ==>
      PayVote(b, win, vote, g, rewards).value.ncn[h] == b.ncn[h]
  {
  }

  /** The work ahead of a group depends only on the buckets ahead. */
  lemma {:induction false} WorkFrame(b: Books, b': Books, win: BallotTally, votes: VoteTable, g: nat, v: nat)
    requires forall h :: g <= h < FEE_GROUP_COUNT ==> b.ncn[h] == b'.ncn[h]
    ensures Work(b, win, votes, g, v, 0) == Work(b', win, votes, g, v, 0)
    decreases FEE_GROUP_COUNT - g
  {
    if g < FEE_GROUP_COUNT {
      WorkFrame(b, b', win, votes, g + 1, v);
      WorkFrame(b, b', win, votes, g + 1, 0);
    }
  }

  lemma {:induction false} RouteVotesIsDrain(b: Books, win: BallotTally, votes: VoteTable, g: nat, v: nat, rewards: U64,
                                             iterations: nat, max: nat)
    requires g < FEE_GROUP_COUNT
    requires iterations <= max <= U16_MAX
    requires iterations + VotesLeft(votes, win.index, v) <= U16_MAX
    ensures var left := VotesLeft(votes, win.index, v);
      match RouteVotes(b, win, votes, g, v, rewards, iterations, max)
      case Err(e) => DrainVotes(b, win, votes, g, v, rewards) == Err(e)
      case Ok(Finished(b', iterations')) =>
        && iterations' == iterations + left <= max
        && DrainVotes(b, win, votes, g, v, rewards) == Ok(b')
        && (forall h :: 0 <= h < FEE_GROUP_COUNT && h != g ==> b'.ncn[h] == b.ncn[h])
      case Ok(Paused(b', cursor)) =>
        && left > max - iterations
        && cursor.group == g && v <= cursor.vote < |votes| && cursor.rewards == rewards
        && VotesLeft(votes, win.index, cursor.vote) == left - (max - iterations)
        && DrainVotes(b', win, votes, g, cursor.vote, rewards) == DrainVotes(b, win, votes, g, v, rewards)
        && (forall h :: 0 <= h < FEE_GROUP_COUNT && h != g ==> b'.ncn[h] == b.ncn[h])
    decreases |votes| - v
  {
    if v >= |votes| {
    } else if votes[v].ballotIndex != win.index {
      RouteVotesIsDrain(b, win, votes, g, v + 1, rewards, iterations, max);
    } else if iterations + 1 <= max {
      var paid := PayVote(b, win, votes[v], g, rewards);
      if paid.Ok? {
        PayVoteFrame(b, win, votes[v], g, rewards);
        RouteVotesIsDrain(paid.value, win, votes, g, v + 1, rewards, iterations + 1, max);
      }
    }
  }

  /** One call against the unlimited run from the same point: it finishes exactly when the work fits
      its limit; otherwise it does exactly `max - iterations` of it and saves a point from which the
      unlimited run would end the same way. */
  lemma {:induction false} RouteGroupsIsDrain(b: Books, win: BallotTally, votes: VoteTable, g: nat, v: nat, saved: U64,
                                              iterations: nat, max: nat)
    requires iterations <= max <= U16_MAX
    requires iterations + Work(b, win, votes, g, v, saved) <= U16_MAX
    ensures var work := Work(b, win, votes, g, v, saved);
      match RouteGroups(b, win, votes, g, v, saved, iterations, max)
      case Err(e) => DrainGroups(b, win, votes, g, v, saved) == Err(e)
      case Ok((b', cursor)) =>
        if work <= max - iterations then cursor == IDLE && DrainGroups(b, win, votes, g, v, saved) == Ok(b')
        else
          && g <= cursor.group < FEE_GROUP_COUNT && cursor.vote < |votes| && cursor.rewards > 0
          && Work(b', win, votes, cursor.group, cursor.vote, cursor.rewards) == work - (max - iterations)
          && DrainGroups(b', win, votes, cursor.group, cursor.vote, cursor.rewards)
             == DrainGroups(b, win, votes, g, v, saved)
    decreases FEE_GROUP_COUNT - g
  {
    if g < FEE_GROUP_COUNT {
      var rewards := StartingRewards(b, g, saved);
      if rewards == 0 {
        RouteGroupsIsDrain(b, win, votes, g + 1, v, 0, iterations, max);
      } else {
        RouteVotesIsDrain(b, win, votes, g, v, rewards, iterations, max);
        match RouteVotes(b, win, votes, g, v, rewards, iterations, max)
        case Err(_) =>
        case Ok(Paused(b', cursor)) =>
          WorkFrame(b, b', win, votes, g + 1, 0);
        case Ok(Finished(b', iterations')) =>
          var swept := SweepGroup(b', g);
          if swept.Ok? {
            WorkFrame(b, swept.value, win, votes, g + 1, 0);
            RouteGroupsIsDrain(swept.value, win, votes, g + 1, 0, 0, iterations', max);
          }
      }
    }
  }

  /** A routing run as it happens on chain: call after call, each with its own limit, until the
      router is no longer in the middle of routing. */
  function RouteCalls(r: Router, box: Box, limits: seq<U16>): Result<Router>
    decreases |limits|
  {
    if limits == [] then Ok(r)
    else
      var r' :- RouteNcnFeeGroupRewards(r, box, limits[0]);
      if r'.StillRouting() then RouteCalls(r', box, limits[1..]) else Ok(r')
  }

  function WorkAhead(r: Router, box: Box, win: BallotTally): nat {
    var (g, v, saved) := ResumePoint(r);
    Work(r.books, win, box.votes, g, v, saved)
  }

  /** What a sequence of limits allows: a limit of 0 still allows one step. */
  function Allowed(limits: seq<U16>): nat
    decreases |limits|
  {
    if limits == [] then 0 else (if limits[0] == 0 then 1 else limits[0]) + Allowed(limits[1..])
  }

  lemma {:induction false} AllowedAtLeastCalls(limits: seq<U16>)
    ensures |limits| <= Allowed(limits)
    decreases |limits|
  {
    if limits != [] {
      AllowedAtLeastCalls(limits[1..]);
    }
  }

  /** Chunk independence. On a fixed ballot box, any sequence of limits (0 included) that gets the
      router to the end gets it to exactly the state, or the error, of one call with the largest
      limit; the end is reached exactly when the limits allow the work ahead. */
  lemma {:induction false} ChunkIndependence(r: Router, box: Box, win: BallotTally, limits: seq<U16>)
    requires GetWinningTally(box) == Ok(win)
    requires r.StillRouting() ==> r.cursor.group < FEE_GROUP_COUNT
    requires limits != []
    ensures match RouteCalls(r, box, limits)
      case Err(e) => RouteNcnFeeGroupRewards(r, box, U16_MAX) == Err(e)
      case Ok(r') =>
        && (r'.StillRouting() <==> Allowed(limits) < WorkAhead(r, box, win))
        && (!r'.StillRouting() ==> RouteNcnFeeGroupRewards(r, box, U16_MAX) == Ok(r'))
    decreases |limits|
  {
    var (g, v, saved) := ResumePoint(r);
    WorkBound(r.books, win, box.votes, g, v, saved);
    var max := AtLeastOne(limits[0]);
    RouteGroupsIsDrain(r.books, win, box.votes, g, v, saved, 0, max);
    RouteGroupsIsDrain(r.books, win, box.votes, g, v, saved, 0, U16_MAX);
    var one := RouteNcnFeeGroupRewards(r, box, limits[0]);
    if one.Ok? && one.value.StillRouting() {
      var r' := one.value;
      var (g', v', saved') := ResumePoint(r');
      if limits[1..] == [] {
      } else {
        ChunkIndependence(r', box, win, limits[1..]);
        RouteGroupsIsDrain(r'.books, win, box.votes, g', v', saved', 0, U16_MAX);
      }
    }
  }

  /** Every run ends within as many calls as there is work, and within one call if there is none. */
  lemma {:induction false} RunEndsInTime(r: Router, box: Box, win: BallotTally, limits: seq<U16>)
    requires GetWinningTally(box) == Ok(win)
    requires r.StillRouting() ==> r.cursor.group < FEE_GROUP_COUNT
    requires |limits| >= 1 && |limits| >= WorkAhead(r, box, win)
    ensures RouteCalls(r, box, limits) == RouteNcnFeeGroupRewards(r, box, U16_MAX)
    ensures RouteCalls(r, box, limits).Ok? ==> !RouteCalls(r, box, limits).value.StillRouting()
  {
    ChunkIndependence(r, box, win, limits);
    AllowedAtLeastCalls(limits);
  }
}
