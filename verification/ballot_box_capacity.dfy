/** A full ballot box: what it looks like, that it exists, and whom it turns away although there would
    be room. */
module BallotBoxCapacity {
  import opened Common
  import opened Sums
  import opened StakeWeight
  import opened BallotBoxSpec
  import opened BallotBoxProofs
  import opened BallotBoxRefinement

  /** With a live ballot in every slot there is exactly one voter on each. */
  lemma {:induction false} FullBoxHasLoneVoters(s: Box, t: nat)
    requires Valid(s) && s.uniqueBallots == MAX_OPERATORS && t < MAX_OPERATORS
    ensures s.tallies[t].ballot.isValid && s.tallies[t].tally == 1
  {
    SumOfFlags(ValidFlags(s.tallies));
    assert forall u :: 0 <= u < MAX_OPERATORS ==> ValidFlags(s.tallies)[u] == 1;
    if s.tallies[t].tally != 1 {
      SumStrict(ValidFlags(s.tallies), Tallied(s.tallies, Heads), t);
      TalliedIsCast(s, Heads);
      SumOfFlags(Cast(s.votes, MAX_OPERATORS, Heads));
    }
  }

  /** Taking a vote back from a full box wipes its ballot. */
  lemma {:induction false} RetractingFreesSlot(s: Box, v: nat)
    requires Valid(s) && s.uniqueBallots == MAX_OPERATORS && v < s.operatorsVoted
    ensures RetractVote(s, s.votes[v]).Ok?
    ensures var s' := RetractVote(s, s.votes[v]).value;
      && s'.uniqueBallots == MAX_OPERATORS - 1
      && s'.tallies == s.tallies[s.votes[v].ballotIndex := EMPTY_TALLY]
  {
    RetractVoteKeeps(s, v, EMPTY_VOTE);
    FullBoxHasLoneVoters(s, s.votes[v].ballotIndex);
  }

  lemma {:induction false} NoTallyAfterWipe(tallies: TallyTable, ballot: Ballot, t: nat)
    requires t < MAX_OPERATORS && FindTally(tallies, ballot, 0) == MAX_OPERATORS
    ensures FindTally(tallies[t := EMPTY_TALLY], ballot, 0) == MAX_OPERATORS
  {
    assert forall u :: 0 <= u < MAX_OPERATORS ==> !tallies[u].ballot.Same(ballot);
  }

  /** The order of the two halves of a vote decides. An operator who has voted, before consensus, and
      names a root that has no ballot yet is turned away exactly when every slot holds a live ballot;
      and whenever it is, counting the vote after taking the old one out would have worked. */
  lemma {:induction false} ReVoteIsRefusedForNothing(s: Box, v: nat, ballot: Ballot, w: StakeWeights, slot: U64,
                                                     validSlots: U64)
    requires Valid(s) && v < s.operatorsVoted && !s.IsConsensusReached()
    requires ballot.isValid && !s.HasBallot(ballot)
    ensures CastVote(s, s.votes[v].operator, ballot, w, slot, validSlots) == Err(BallotTallyFull)
       <==> s.uniqueBallots == MAX_OPERATORS
    ensures s.uniqueBallots == MAX_OPERATORS ==>
      && RetractVote(s, s.votes[v]).Ok?
      && IncrementOrCreate(RetractVote(s, s.votes[v]).value, ballot, w).Ok?
  {
    BallotTallyFullExactly(s, ballot, w);
    if s.uniqueBallots == MAX_OPERATORS {
      RetractingFreesSlot(s, v);
      NoTallyAfterWipe(s.tallies, ballot, s.votes[v].ballotIndex);
      var s' := RetractVote(s, s.votes[v]).value;
      assert !s'.tallies[s.votes[v].ballotIndex].ballot.isValid;
    }
  }

  /** What a vote for a root needs before anything is taken back: room for the weights in the tally of
      the root, or a free slot for a new one. */
  predicate HasRoom(s: Box, ballot: Ballot, w: StakeWeights) {
    var t := FindTally(s.tallies, ballot, 0);
    if t < |s.tallies| then AddFits(s.tallies[t].weights, w) else s.uniqueBallots < MAX_OPERATORS
  }

  lemma {:induction false} CountedExactly(s: Box, ballot: Ballot, w: StakeWeights)
    requires Valid(s) && ballot.isValid
    ensures IncrementOrCreate(s, ballot, w).Ok? <==> HasRoom(s, ballot, w)
  {
    BallotTallyFullExactly(s, ballot, w);
    SumOfFlags(ValidFlags(s.tallies));
    var t := FindTally(s.tallies, ballot, 0);
    if t < |s.tallies| {
      TalliedIsCast(s, Heads);
      SumAtLeast(Tallied(s.tallies, Heads), t);
      SumOfFlags(Cast(s.votes, MAX_OPERATORS, Heads));
    }
  }

  /** The second half of a re-vote cannot fail. */
  lemma {:induction false} ReVoteIsRecorded(s: Box, v: nat, ballot: Ballot, w: StakeWeights, slot: U64)
    requires Valid(s) && v < s.operatorsVoted && !s.IsConsensusReached() && ballot.isValid
    requires IncrementOrCreate(s, ballot, w).Ok?
    ensures var (t, s1) := IncrementOrCreate(s, ballot, w).value;
      t < |s1.tallies| && RecordVote(s1, s.votes[v].operator, t, w, slot).Ok?
  {
    var (t, s1) := IncrementOrCreate(s, ballot, w).value;
    var vote := OperatorVote(s.votes[v].operator, slot, w, t);
    IncrementOrCreateKeeps(s, ballot, vote);
    VoteSlot(s.votes, s.operatorsVoted, s.votes[v].operator);
    RetractVoteKeeps(s1, v, vote);
  }

  /** Before consensus, an operator who has voted is heard again exactly when its root is a root and has
      room; after consensus it is never heard again. */
  lemma {:induction false} ReVoteExactly(s: Box, v: nat, ballot: Ballot, w: StakeWeights, slot: U64, validSlots: U64)
    requires Valid(s) && v < s.operatorsVoted
    ensures CastVote(s, s.votes[v].operator, ballot, w, slot, validSlots).Ok?
       <==> !s.IsConsensusReached() && ballot.isValid && HasRoom(s, ballot, w)
  {
    if ballot.isValid {
      CountedExactly(s, ballot, w);
      if s.IsConsensusReached() {
        VoteSlot(s.votes, s.operatorsVoted, s.votes[v].operator);
      } else if HasRoom(s, ballot, w) {
        ReVoteIsRecorded(s, v, ballot, w, slot);
      }
    }
  }

  /** An operator that turns to another ballot always finds room for its weights there, as long as all
      the votes together fit. */
  lemma {:induction false} OtherBallotHasRoom(s: Box, v: nat, t: nat)
    requires Valid(s) && v < s.operatorsVoted && t < |s.tallies| && s.votes[v].ballotIndex != t
    requires forall m :: m != Heads ==> Sum(Cast(s.votes, MAX_OPERATORS, m)) <= U128_MAX
    ensures AddFits(s.tallies[t].weights, s.votes[v].weights)
  {
    var u := s.votes[v].ballotIndex;
    forall m | m != Heads ensures s.tallies[t].Amount(m) + s.votes[v].weights.Amount(m) <= U128_MAX {
      assert s.tallies[u].Amount(m) == Backing(s.votes, u, m) + Contribution(EMPTY_VOTE, u, m);
      BackingAtLeast(s.votes, v, m);
      TalliedIsCast(s, m);
      var tallied := Tallied(s.tallies, m);
      SumUpdate(tallied, u, 0);
      SumAtLeast(tallied[u := 0], t);
    }
    assert s.tallies[t].Amount(Stake) + s.votes[v].weights.Amount(Stake) <= U128_MAX;
    forall g | 0 <= g < FEE_GROUP_COUNT
      ensures s.tallies[t].weights.groups[g] + s.votes[v].weights.groups[g] <= U128_MAX
    {
      assert s.tallies[t].Amount(GroupStake(g)) + s.votes[v].weights.Amount(GroupStake(g)) <= U128_MAX;
    }
  }

  // ------------------------------------------------------------------
  // A full box exists
  // ------------------------------------------------------------------

  /** Operators 1 to `n` vote one after the other, each for a root of its own. */
  function CastEach(n: nat): Result<Box>
    requires n <= MAX_OPERATORS
  {
    if n == 0 then Ok(NewBox(0))
    else
      var s :- CastEach(n - 1);
      CastVote(s, n, NewBallot(n), ZERO_WEIGHTS, 1, 0)
  }

  /** The box after `n` of them. */
  ghost predicate HoldsFirst(s: Box, n: nat) {
    && Valid(s) && !s.IsConsensusReached()
    && s.operatorsVoted == s.uniqueBallots == n
    && (forall k :: k in VoteMap(s) <==> 1 <= k <= n)
    && (forall k :: k in VoteMap(s) ==> VoteMap(s)[k].root == k)
  }

  lemma {:induction false} NextRootIsFresh(s: Box, n: nat, root: Digest)
    requires HoldsFirst(s, n) && root > n
    ensures !s.HasBallot(NewBallot(root))
  {
    RootsAgree(s);
    var t := FindTally(s.tallies, NewBallot(root), 0);
    if t < |s.tallies| {
      LiveRootIsChosen(s, t);
    }
  }

  /** The next one is heard. */
  lemma {:induction false} NextIsHeard(s: Box, n: nat)
    requires HoldsFirst(s, n) && n < MAX_OPERATORS
    ensures CastVote(s, n + 1, NewBallot(n + 1), ZERO_WEIGHTS, 1, 0).Ok?
    ensures var s' := CastVote(s, n + 1, NewBallot(n + 1), ZERO_WEIGHTS, 1, 0).value;
      s'.operatorsVoted == n + 1 && s'.uniqueBallots == n + 1 && !s'.IsConsensusReached()
  {
    NextRootIsFresh(s, n, n + 1);
    BallotTallyFullExactly(s, NewBallot(n + 1), ZERO_WEIGHTS);
    StrangerNeedsSlot(s, n + 1);
    VoteSlot(s.votes, s.operatorsVoted, n + 1);
    var v := CastSlot(s, n + 1);
    if v < s.operatorsVoted {
      ChoiceOfSlot(s, s.operatorsVoted, v);
    }
  }

  lemma {:induction false} HoldsNext(s: Box, n: nat)
    requires HoldsFirst(s, n) && n < MAX_OPERATORS
    ensures CastVote(s, n + 1, NewBallot(n + 1), ZERO_WEIGHTS, 1, 0).Ok?
    ensures HoldsFirst(CastVote(s, n + 1, NewBallot(n + 1), ZERO_WEIGHTS, 1, 0).value, n + 1)
  {
    NextIsHeard(s, n);
    CastVoteUpdatesMap(s, n + 1, NewBallot(n + 1), ZERO_WEIGHTS, 1, 0);
  }

  lemma {:induction false} OneMoreCast(n: nat)
    requires n < MAX_OPERATORS && CastEach(n).Ok?
    ensures CastEach(n + 1) == CastVote(CastEach(n).value, n + 1, NewBallot(n + 1), ZERO_WEIGHTS, 1, 0)
  {
  }

  lemma {:induction false} NobodyYet()
    ensures CastEach(0) == Ok(NewBox(0)) && HoldsFirst(NewBox(0), 0)
  {
    NewBoxIsValid(0);
  }

  lemma {:induction false} EachIsHeard(n: nat) returns (s: Box)
    requires n <= MAX_OPERATORS
    ensures CastEach(n) == Ok(s) && HoldsFirst(s, n)
  {
    if n == 0 {
      NobodyYet();
      s := NewBox(0);
    } else {
      var before := EachIsHeard(n - 1);
      HoldsNext(before, n - 1);
      OneMoreCast(n - 1);
      s := CastVote(before, n, NewBallot(n), ZERO_WEIGHTS, 1, 0).value;
    }
  }

  /** So the refusal is real: after 256 operators have voted for a root each, the first of them cannot
      change its mind to a new root, with voting open and its own slot about to be free. */
  lemma {:induction false} FullBoxRefusesReVote(root: Digest, w: StakeWeights, slot: U64, validSlots: U64)
    requires root > MAX_OPERATORS
    ensures CastEach(MAX_OPERATORS).Ok?
    ensures var s := CastEach(MAX_OPERATORS).value;
      && Valid(s) && s.uniqueBallots == MAX_OPERATORS && 1 in VoteMap(s)
      && IsVotingValid(s, slot, validSlots) == Ok(true)
      && CastVote(s, 1, NewBallot(root), w, slot, validSlots) == Err(BallotTallyFull)
  {
    var s := EachIsHeard(MAX_OPERATORS);
    NextRootIsFresh(s, MAX_OPERATORS, root);
    BallotTallyFullExactly(s, NewBallot(root), w);
  }
}
