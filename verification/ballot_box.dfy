/** `BallotBox` as the program holds it: an account whose tables are overwritten in place.
    Each method is proved against the value-level operation of the same name. On an error the
    tables may already have changed, as in the source; the runtime then discards the account
    changes of the whole instruction, so nothing is promised about the state after an error. */
module BallotBoxAccount {
  import opened Common
  import opened StakeWeight
  import opened BallotBoxSpec

  class BallotBox {
    var epoch: U64
    var slotConsensus: U64
    var operatorsVoted: U64
    var uniqueBallots: U64
    var winning: Ballot
    const operatorVotes: array<OperatorVote>
    const ballotTallies: array<BallotTally>

    ghost predicate Shaped() {
      operatorVotes.Length == MAX_OPERATORS && ballotTallies.Length == MAX_OPERATORS
    }

    ghost function State(): Box
      requires Shaped()
      reads this, operatorVotes, ballotTallies
    {
      Box(epoch, slotConsensus, operatorsVoted, uniqueBallots, winning, operatorVotes[..], ballotTallies[..])
    }

    constructor (epoch: U64)
      ensures Shaped() && fresh(operatorVotes) && fresh(ballotTallies)
      ensures State() == NewBox(epoch)
    {
      this.epoch := epoch;
      slotConsensus, operatorsVoted, uniqueBallots, winning := NO_SLOT, 0, 0, NO_BALLOT;
      operatorVotes := new OperatorVote[MAX_OPERATORS](_ => EMPTY_VOTE);
      ballotTallies := new BallotTally[MAX_OPERATORS](_ => EMPTY_TALLY);
      new;
      assert operatorVotes[..] == NewBox(epoch).votes;
      assert ballotTallies[..] == NewBox(epoch).tallies;
    }

    method IncrementOrCreateBallotTally(ballot: Ballot, weights: StakeWeights) returns (r: Result<nat>)
      requires Shaped()
      modifies this`uniqueBallots, ballotTallies
      ensures match IncrementOrCreate(old(State()), ballot, weights)
        case Ok((t, s)) => r == Ok(t) && State() == s
        case Err(e) => r == Err(e)
    {
      ghost var s := State();
      for t := 0 to ballotTallies.Length
        invariant State() == s
        invariant FindTally(s.tallies, ballot, t) == FindTally(s.tallies, ballot, 0)
      {
        var tally := ballotTallies[t];
        if tally.ballot.isValid && tally.ballot.Same(ballot) {
          var sum :- Increment(tally.weights, weights);
          var count :- CheckedAdd64(tally.tally, 1);
          ballotTallies[t] := tally.(weights := sum, tally := count);
          assert ballotTallies[..] == s.tallies[t := ballotTallies[t]];
          return Ok(t);
        }
      }
      for t := 0 to ballotTallies.Length
        invariant State() == s
        invariant FindFree(s.tallies, t) == FindFree(s.tallies, 0)
      {
        if !ballotTallies[t].ballot.isValid {
          ballotTallies[t] := BallotTally(t, ballot, weights, 1);
          uniqueBallots :- CheckedAdd64(uniqueBallots, 1);
          assert ballotTallies[..] == s.tallies[t := ballotTallies[t]];
          return Ok(t);
        }
      }
      return Err(BallotTallyFull);
    }

    /** The decrement half of a re-vote. */
    method RetractVote(vote: OperatorVote) returns (r: Result<()>)
      requires Shaped()
      modifies this`uniqueBallots, ballotTallies
      ensures match BallotBoxSpec.RetractVote(old(State()), vote)
        case Ok(s) => r.Ok? && State() == s
        case Err(e) => r == Err(e)
    {
      ghost var s := State();
      var t := vote.ballotIndex;
      if t < ballotTallies.Length {
        var tally := ballotTallies[t];
        var rest :- Decrement(tally.weights, vote.weights);
        var count :- CheckedSub(tally.tally, 1, ArithmeticOverflow);
        ballotTallies[t] := tally.(weights := rest, tally := count);
        if count == 0 {
          ballotTallies[t] := EMPTY_TALLY;
          uniqueBallots :- CheckedSub(uniqueBallots, 1, ArithmeticOverflow);
        }
        assert ballotTallies[..] == s.tallies[t := ballotTallies[t]];
      }
      return Ok(());
    }

    method CastVote(operator: Key, ballot: Ballot, weights: StakeWeights, slot: U64, validSlots: U64)
      returns (r: Result<()>)
      requires Shaped()
      modifies this, operatorVotes, ballotTallies
      ensures match BallotBoxSpec.CastVote(old(State()), operator, ballot, weights, slot, validSlots)
        case Ok(s) => r.Ok? && State() == s
        case Err(e) => r == Err(e)
    {
      var open :- IsVotingValid(slot, validSlots);
      if !open {
        return Err(VotingNotValid);
      }
      if !ballot.isValid {
        return Err(BadBallot);
      }
      var t :- IncrementOrCreateBallotTally(ballot, weights);
      var consensusReached := IsConsensusReached();
      ghost var s := State();
      for v := 0 to operatorVotes.Length
        invariant State() == s
        invariant FindVoteSlot(s.votes, operator, v) == FindVoteSlot(s.votes, operator, 0)
      {
        var vote := operatorVotes[v];
        if vote.operator == operator {
          if consensusReached {
            return Err(ConsensusAlreadyReached);
          }
          var _ :- RetractVote(vote);
          ghost var s' := State();
          operatorVotes[v] := OperatorVote(operator, slot, weights, t);
          assert operatorVotes[..] == s'.votes[v := operatorVotes[v]];
          return Ok(());
        }
        if vote.IsEmpty() {
          operatorVotes[v] := OperatorVote(operator, slot, weights, t);
          operatorsVoted :- CheckedAdd64(operatorsVoted, 1);
          assert operatorVotes[..] == s.votes[v := operatorVotes[v]];
          return Ok(());
        }
      }
      return Err(OperatorVotesFull);
    }

    method TallyVotes(th: Threshold, total: U128, slot: U64) returns (r: Result<()>)
      requires Shaped()
      modifies this`slotConsensus, this`winning
      ensures match BallotBoxSpec.TallyVotes(old(State()), th, total, slot)
        case Ok(s) => r.Ok? && State() == s
        case Err(e) => r == Err(e)
    {
      if slotConsensus != NO_SLOT {
        return Ok(());
      }
      var heaviest := 0;
      for t := 1 to ballotTallies.Length
        invariant heaviest == MaxTally(ballotTallies[..], t)
      {
        if ballotTallies[heaviest].weights.total <= ballotTallies[t].weights.total {
          heaviest := t;
        }
      }
      if total == 0 {
        return Err(DenominatorIsZero);
      }
      var tally := ballotTallies[heaviest];
      if th.Met(tally.weights.total, total) && !winning.isValid {
        slotConsensus := slot;
        winning := tally.ballot;
      }
      return Ok(());
    }

    method SetTieBreakerBallot(root: Digest, currentEpoch: U64, epochsBeforeStall: U64) returns (r: Result<()>)
      requires Shaped()
      modifies this`winning
      ensures match SetTieBreaker(old(State()), root, currentEpoch, epochsBeforeStall)
        case Ok(s) => r.Ok? && State() == s
        case Err(e) => r == Err(e) && State() == old(State())
    {
      var reached := IsConsensusReached();
      if reached {
        return Err(ConsensusAlreadyReached);
      }
      var stall :- CheckedAdd64(epoch, epochsBeforeStall);
      if currentEpoch < stall {
        return Err(VotingNotFinalized);
      }
      var ballot := NewBallot(root);
      var has := HasBallot(ballot);
      if !has {
        return Err(TieBreakerNotInPriorVotes);
      }
      winning := ballot;
      return Ok(());
    }

    method HasBallot(ballot: Ballot) returns (has: bool)
      requires Shaped()
      ensures has == State().HasBallot(ballot)
    {
      for t := 0 to ballotTallies.Length
        invariant FindTally(ballotTallies[..], ballot, t) == FindTally(ballotTallies[..], ballot, 0)
      {
        if ballotTallies[t].ballot.Same(ballot) {
          return true;
        }
      }
      return false;
    }

    method IsConsensusReached() returns (reached: bool)
      requires Shaped()
      ensures reached == State().IsConsensusReached()
    {
      return slotConsensus != NO_SLOT || winning.isValid;
    }

    method IsVotingValid(slot: U64, validSlots: U64) returns (r: Result<bool>)
      requires Shaped()
      ensures r == BallotBoxSpec.IsVotingValid(State(), slot, validSlots)
    {
      if slotConsensus == NO_SLOT && winning.isValid {
        return Ok(false);
      }
      var reached := IsConsensusReached();
      if reached {
        var last :- CheckedAdd64(slotConsensus, validSlots);
        return Ok(slot <= last);
      }
      return Ok(true);
    }

    method GetWinningBallotTally() returns (r: Result<BallotTally>)
      requires Shaped()
      ensures r == GetWinningTally(State())
    {
      if !winning.isValid {
        return Err(ConsensusNotReached);
      }
      for t := 0 to ballotTallies.Length
        invariant FindTally(ballotTallies[..], winning, t) == FindTally(ballotTallies[..], winning, 0)
      {
        if ballotTallies[t].ballot.Same(winning) {
          return Ok(ballotTallies[t]);
        }
      }
      return Err(BallotTallyNotFound);
    }
  }
}
