/** What every successful vote keeps: the incremental tallies are always the sums of the votes. */
module BallotBoxProofs {
  import opened Common
  import opened Sums
  import opened StakeWeight
  import opened BallotBoxSpec

  function Contribution(vote: OperatorVote, t: nat, m: Measure): nat {
    if vote.ballotIndex == t then vote.weights.Amount(m) else 0
  }

  function Contributions(votes: seq<OperatorVote>, t: nat, m: Measure): (r: seq<nat>)
    ensures |r| == |votes|
  {
    seq(|votes|, i requires 0 <= i < |votes| => Contribution(votes[i], t, m))
  }

  /** What the votes in favour of slot `t` add up to. */
  function Backing(votes: seq<OperatorVote>, t: nat, m: Measure): nat {
    Sum(Contributions(votes, t, m))
  }

  lemma {:induction false} BackingUpdate(votes: seq<OperatorVote>, v: nat, vote: OperatorVote, t: nat, m: Measure)
    requires v < |votes|
    ensures Backing(votes[v := vote], t, m) + Contribution(votes[v], t, m)
         == Backing(votes, t, m) + Contribution(vote, t, m)
  {
    assert Contributions(votes[v := vote], t, m) == Contributions(votes, t, m)[v := Contribution(vote, t, m)];
    SumUpdate(Contributions(votes, t, m), v, Contribution(vote, t, m));
  }

  lemma {:induction false} BackingAtLeast(votes: seq<OperatorVote>, v: nat, m: Measure)
    requires v < |votes|
    ensures Backing(votes, votes[v].ballotIndex, m) >= votes[v].weights.Amount(m)
  {
    SumAtLeast(Contributions(votes, votes[v].ballotIndex, m), v);
  }

  /** A slot nobody voted for has no backing under any measure. */
  lemma {:induction false} NoHeadsNoBacking(votes: seq<OperatorVote>, t: nat, m: Measure)
    requires Backing(votes, t, Heads) == 0
    ensures Backing(votes, t, m) == 0
    ensures forall i :: 0 <= i < |votes| ==> votes[i].ballotIndex != t
  {
    SumZero(Contributions(votes, t, Heads));
    forall i | 0 <= i < |votes|
      ensures votes[i].ballotIndex != t
    {
      assert Contributions(votes, t, Heads)[i] == 0;
    }
    SumZero(Contributions(votes, t, m));
  }

  /** Every tally is the backing of its slot plus a vote that is counted but not yet recorded. */
  ghost predicate Counted(votes: seq<OperatorVote>, tallies: seq<BallotTally>, pending: OperatorVote) {
    forall t, m :: 0 <= t < |tallies| ==>
      tallies[t].Amount(m) == Backing(votes, t, m) + Contribution(pending, t, m)
  }

  function ValidFlags(tallies: seq<BallotTally>): (r: seq<nat>)
    ensures |r| == |tallies|
  {
    seq(|tallies|, t requires 0 <= t < |tallies| => if tallies[t].ballot.isValid then 1 else 0)
  }

  /** Live tallies sit at their own index, hold at least one vote and have distinct roots;
      the rest are wiped clean, wherever they are. */
  ghost predicate TalliesOk(tallies: seq<BallotTally>, unique: nat) {
    && |tallies| == MAX_OPERATORS
    && (forall t :: 0 <= t < |tallies| ==>
         if tallies[t].ballot.isValid then tallies[t].index == t && tallies[t].tally > 0
         else tallies[t] == EMPTY_TALLY)
    && (forall t, u :: 0 <= t < u < |tallies| ==> !tallies[t].ballot.Same(tallies[u].ballot))
    && unique == Sum(ValidFlags(tallies))
  }

  /** Recorded votes fill a prefix of the table, one per operator. */
  ghost predicate VotesOk(votes: seq<OperatorVote>, voted: nat) {
    && voted <= |votes| == MAX_OPERATORS
    && (forall i :: 0 <= i < voted ==> votes[i].ballotIndex < MAX_OPERATORS && votes[i].operator != DEFAULT_KEY)
    && (forall i :: voted <= i < |votes| ==> votes[i] == EMPTY_VOTE)
    && (forall i, j :: 0 <= i < j < voted ==> votes[i].operator != votes[j].operator)
  }

  ghost predicate Valid(s: Box) {
    && TalliesOk(s.tallies, s.uniqueBallots)
    && VotesOk(s.votes, s.operatorsVoted)
    && Counted(s.votes, s.tallies, EMPTY_VOTE)
  }

  lemma {:induction false} NewBoxIsValid(epoch: U64)
    ensures Valid(NewBox(epoch))
  {
    var s := NewBox(epoch);
    SumZero(ValidFlags(s.tallies));
    forall t, m | 0 <= t < |s.tallies|
      ensures Backing(s.votes, t, m) == 0 == s.tallies[t].Amount(m)
    {
      SumZero(Contributions(s.votes, t, m));
    }
  }

  /** A recorded vote always points at a live tally. */
  lemma {:induction false} VoteBacksLiveTally(s: Box, v: nat)
    requires Valid(s) && v < s.operatorsVoted
    ensures s.tallies[s.votes[v].ballotIndex].ballot.isValid
  {
    BackingAtLeast(s.votes, v, Heads);
    assert s.tallies[s.votes[v].ballotIndex].Amount(Heads) > 0;
  }

  lemma {:induction false} AddAmount(a: StakeWeights, b: StakeWeights, m: Measure)
    requires Add(a, b).Ok? && m != Heads
    ensures Add(a, b).value.Amount(m) == a.Amount(m) + b.Amount(m)
  {
  }

  lemma {:induction false} SubAmount(a: StakeWeights, b: StakeWeights, m: Measure)
    requires Sub(a, b).Ok? && m != Heads
    ensures Sub(a, b).value.Amount(m) + b.Amount(m) == a.Amount(m)
  {
  }

  lemma {:induction false} FlagsUpdate(tallies: seq<BallotTally>, t: nat, tally: BallotTally)
    requires t < |tallies|
    ensures Sum(ValidFlags(tallies[t := tally])) + ValidFlags(tallies)[t]
         == Sum(ValidFlags(tallies)) + if tally.ballot.isValid then 1 else 0
  {
    var flag := if tally.ballot.isValid then 1 else 0;
    assert ValidFlags(tallies[t := tally]) == ValidFlags(tallies)[t := flag];
    SumUpdate(ValidFlags(tallies), t, flag);
  }

  lemma {:induction false} FreeSlotIsEmpty(tallies: seq<BallotTally>, votes: seq<OperatorVote>, unique: nat, f: nat)
    requires TalliesOk(tallies, unique) && Counted(votes, tallies, EMPTY_VOTE)
    requires f < |tallies| && !tallies[f].ballot.isValid
    ensures forall m :: Backing(votes, f, m) == 0
    ensures forall i :: 0 <= i < |votes| ==> votes[i].ballotIndex != f
  {
    assert tallies[f].Amount(Heads) == 0;
    forall m ensures Backing(votes, f, m) == 0 {
      NoHeadsNoBacking(votes, f, m);
    }
    NoHeadsNoBacking(votes, f, Heads);
  }

  /** One more vote on a live tally. */
  lemma {:induction false} IncrementCounts(s: Box, t: nat, vote: OperatorVote)
    requires Valid(s) && t < |s.tallies| && vote.ballotIndex == t && s.tallies[t].ballot.isValid
    requires IncrementTally(s.tallies[t], vote.weights).Ok?
    ensures var tallies' := s.tallies[t := IncrementTally(s.tallies[t], vote.weights).value];
      TalliesOk(tallies', s.uniqueBallots) && Counted(s.votes, tallies', vote)
  {
    var tallies' := s.tallies[t := IncrementTally(s.tallies[t], vote.weights).value];
    FlagsUpdate(s.tallies, t, tallies'[t]);
    forall u, m | 0 <= u < |tallies'|
      ensures tallies'[u].Amount(m) == Backing(s.votes, u, m) + Contribution(vote, u, m)
    {
      assert s.tallies[u].Amount(m) == Backing(s.votes, u, m) + Contribution(EMPTY_VOTE, u, m);
      if u == t && m != Heads {
        AddAmount(s.tallies[t].weights, vote.weights, m);
      }
    }
  }

  /** The first vote on a new ballot, in a free slot. */
  lemma {:induction false} CreateCounts(s: Box, f: nat, ballot: Ballot, vote: OperatorVote)
    requires Valid(s) && ballot.isValid && f < |s.tallies| && vote.ballotIndex == f
    requires !s.tallies[f].ballot.isValid && FindTally(s.tallies, ballot, 0) == |s.tallies|
    ensures var tallies' := s.tallies[f := BallotTally(f, ballot, vote.weights, 1)];
      TalliesOk(tallies', s.uniqueBallots + 1) && Counted(s.votes, tallies', vote)
  {
    var tallies' := s.tallies[f := BallotTally(f, ballot, vote.weights, 1)];
    FlagsUpdate(s.tallies, f, tallies'[f]);
    FreeSlotIsEmpty(s.tallies, s.votes, s.uniqueBallots, f);
    forall u, m | 0 <= u < |tallies'|
      ensures tallies'[u].Amount(m) == Backing(s.votes, u, m) + Contribution(vote, u, m)
    {
      assert s.tallies[u].Amount(m) == Backing(s.votes, u, m) + Contribution(EMPTY_VOTE, u, m);
    }
  }

  /** Counting a vote: the tallies now include it, the vote table does not yet. */
  lemma {:induction false} IncrementOrCreateKeeps(s: Box, ballot: Ballot, vote: OperatorVote)
    requires Valid(s) && ballot.isValid
    requires IncrementOrCreate(s, ballot, vote.weights).Ok?
    requires IncrementOrCreate(s, ballot, vote.weights).value.0 == vote.ballotIndex
    ensures CountedNotRecorded(s, IncrementOrCreate(s, ballot, vote.weights).value.1, ballot, vote)
  {
    var found := FindTally(s.tallies, ballot, 0);
    if found < |s.tallies| {
      IncrementCounts(s, found, vote);
    } else {
      CreateCounts(s, vote.ballotIndex, ballot, vote);
    }
  }

  /** The old vote is still in its ballot's tally, so taking it out fits. */
  lemma {:induction false} RetractFits(s: Box, v: nat, pending: OperatorVote)
    requires Counted(s.votes, s.tallies, pending)
    requires v < |s.votes| && s.votes[v].ballotIndex < |s.tallies|
    ensures var t := s.votes[v].ballotIndex;
      SubFits(s.tallies[t].weights, s.votes[v].weights) && s.tallies[t].tally >= 1
  {
    var vote := s.votes[v];
    var t := vote.ballotIndex;
    forall m
      ensures s.tallies[t].Amount(m) >= vote.weights.Amount(m)
    {
      BackingAtLeast(s.votes, v, m);
      assert s.tallies[t].Amount(m) == Backing(s.votes, t, m) + Contribution(pending, t, m);
    }
    assert s.tallies[t].Amount(Heads) >= vote.weights.Amount(Heads);
    assert s.tallies[t].Amount(Stake) >= vote.weights.Amount(Stake);
    forall g | 0 <= g < FEE_GROUP_COUNT
      ensures vote.weights.groups[g] <= s.tallies[t].weights.groups[g]
    {
      assert s.tallies[t].Amount(GroupStake(g)) >= vote.weights.Amount(GroupStake(g));
    }
  }

  /** The tally without the vote counts the votes without it. */
  lemma {:induction false} DecrementCounts(s: Box, v: nat, pending: OperatorVote, u: nat, m: Measure)
    requires Counted(s.votes, s.tallies, pending)
    requires v < |s.votes| && s.votes[v].ballotIndex < |s.tallies| == MAX_OPERATORS && u < |s.tallies|
    requires DecrementTally(s.tallies[s.votes[v].ballotIndex], s.votes[v].weights).Ok?
    ensures var t := s.votes[v].ballotIndex;
      (if u == t then DecrementTally(s.tallies[t], s.votes[v].weights).value else s.tallies[u]).Amount(m)
      == Backing(s.votes[v := EMPTY_VOTE], u, m) + Contribution(pending, u, m)
  {
    assert s.tallies[u].Amount(m) == Backing(s.votes, u, m) + Contribution(pending, u, m);
    BackingUpdate(s.votes, v, EMPTY_VOTE, u, m);
    if u == s.votes[v].ballotIndex && m != Heads {
      SubAmount(s.tallies[u].weights, s.votes[v].weights, m);
    }
  }

  /** Retracting a recorded vote never fails, and leaves the tallies counting everything but it. */
  lemma {:induction false} RetractVoteKeeps(s: Box, v: nat, pending: OperatorVote)
    requires TalliesOk(s.tallies, s.uniqueBallots)
    requires Counted(s.votes, s.tallies, pending)
    requires v < |s.votes| && s.votes[v].ballotIndex < |s.tallies|
    ensures RetractVote(s, s.votes[v]).Ok?
    ensures var s' := RetractVote(s, s.votes[v]).value;
      && s' == s.(tallies := s'.tallies, uniqueBallots := s'.uniqueBallots)
      && TalliesOk(s'.tallies, s'.uniqueBallots)
      && Counted(s.votes[v := EMPTY_VOTE], s'.tallies, pending)
      && forall u :: 0 <= u < |s.tallies| && s'.tallies[u].ballot.isValid ==>
         s'.tallies[u].ballot == s.tallies[u].ballot
  {
    var vote := s.votes[v];
    var t := vote.ballotIndex;
    RetractFits(s, v, pending);
    var tally := DecrementTally(s.tallies[t], vote.weights).value;
    SumAtLeast(ValidFlags(s.tallies), t);
    var s' := RetractVote(s, vote).value;
    FlagsUpdate(s.tallies, t, s'.tallies[t]);
    var votes' := s.votes[v := EMPTY_VOTE];
    forall u, m | 0 <= u < |s'.tallies|
      ensures s'.tallies[u].Amount(m) == Backing(votes', u, m) + Contribution(pending, u, m)
    {
      DecrementCounts(s, v, pending, u, m);
      if u == t && tally.tally == 0 {
        DecrementCounts(s, v, pending, t, Heads);
        NoHeadsNoBacking(votes', t, m);
      }
    }
  }

  /** Writing the pending vote into its slot settles the books. */
  lemma {:induction false} RecordPending(votes: seq<OperatorVote>, v: nat, tallies: seq<BallotTally>,
                                         vote: OperatorVote)
    requires v < |votes| && |tallies| <= MAX_OPERATORS
    requires Counted(votes[v := EMPTY_VOTE], tallies, vote)
    ensures Counted(votes[v := vote], tallies, EMPTY_VOTE)
  {
    forall t, m | 0 <= t < |tallies|
      ensures tallies[t].Amount(m) == Backing(votes[v := vote], t, m) + Contribution(EMPTY_VOTE, t, m)
    {
      var cleared := votes[v := EMPTY_VOTE];
      BackingUpdate(cleared, v, vote, t, m);
      assert cleared[v := vote] == votes[v := vote];
      assert tallies[t].Amount(m) == Backing(cleared, t, m) + Contribution(vote, t, m);
    }
  }

  lemma {:induction false} VoteSlot(votes: seq<OperatorVote>, voted: nat, operator: Key)
    requires VotesOk(votes, voted) && operator != DEFAULT_KEY
    ensures var v := FindVoteSlot(votes, operator, 0);
      && v <= voted
      && (v < voted ==> votes[v].operator == operator)
      && (v == voted ==> forall i :: 0 <= i < |votes| ==> votes[i].operator != operator)
  {
    assert voted < |votes| ==> votes[voted].IsEmpty();
  }

  /** The vote a successful cast leaves behind, and where. */
  function CastSlot(s: Box, operator: Key): nat {
    FindVoteSlot(s.votes, operator, 0)
  }

  /** What a successful cast does to the tables: one vote is replaced or appended. */
  ghost predicate CastRecorded(s: Box, s': Box, operator: Key, w: StakeWeights, slot: U64, t: U16) {
    var v := CastSlot(s, operator);
    && v <= s.operatorsVoted && v < |s.votes|
    && s'.votes == s.votes[v := OperatorVote(operator, slot, w, t)]
    && s'.operatorsVoted == (if v == s.operatorsVoted then s.operatorsVoted + 1 else s.operatorsVoted)
    && (v < s.operatorsVoted ==> s.votes[v].operator == operator && !s.IsConsensusReached())
    && (v == s.operatorsVoted ==> forall i :: 0 <= i < |s.votes| ==> s.votes[i].operator != operator)
    && s'.slotConsensus == s.slotConsensus && s'.winning == s.winning && s'.epoch == s.epoch
  }

  /** Before a vote is recorded it is counted: the state between the two halves of `cast_vote`. */
  ghost predicate CountedNotRecorded(s: Box, s1: Box, ballot: Ballot, vote: OperatorVote) {
    && vote.ballotIndex < |s1.tallies|
    && s1 == s.(tallies := s1.tallies, uniqueBallots := s1.uniqueBallots)
    && TalliesOk(s1.tallies, s1.uniqueBallots)
    && Counted(s1.votes, s1.tallies, vote)
    && s1.tallies[vote.ballotIndex].ballot.Same(ballot)
    && forall u :: 0 <= u < |s.tallies| && s.tallies[u].ballot.isValid ==> s1.tallies[u].ballot == s.tallies[u].ballot
  }

  lemma {:induction false} RecordVoteKeeps(s: Box, s1: Box, ballot: Ballot, vote: OperatorVote)
    requires Valid(s) && vote.operator != DEFAULT_KEY
    requires CountedNotRecorded(s, s1, ballot, vote)
    requires RecordVote(s1, vote.operator, vote.ballotIndex, vote.weights, vote.slotVoted).Ok?
    ensures var s' := RecordVote(s1, vote.operator, vote.ballotIndex, vote.weights, vote.slotVoted).value;
      && Valid(s')
      && CastRecorded(s, s', vote.operator, vote.weights, vote.slotVoted, vote.ballotIndex)
      && forall u :: 0 <= u < |s.tallies| && s'.tallies[u].ballot.isValid ==>
         s'.tallies[u].ballot == s1.tallies[u].ballot
  {
    VoteSlot(s.votes, s.operatorsVoted, vote.operator);
    var v := CastSlot(s, vote.operator);
    var s' := RecordVote(s1, vote.operator, vote.ballotIndex, vote.weights, vote.slotVoted).value;
    if v < s.operatorsVoted {
      RetractVoteKeeps(s1, v, vote);
    } else {
      assert s.votes[v := EMPTY_VOTE] == s.votes;
    }
    RecordPending(s.votes, v, s'.tallies, vote);
  }

  /** A successful cast keeps the box valid, records exactly one vote for the ballot it names, and
      leaves every other recorded vote on the ballot it was on. */
  lemma {:induction false} CastVoteKeeps(s: Box, operator: Key, ballot: Ballot, w: StakeWeights, slot: U64,
                                         validSlots: U64)
    returns (t: U16)
    requires Valid(s) && operator != DEFAULT_KEY
    requires CastVote(s, operator, ballot, w, slot, validSlots).Ok?
    ensures var s' := CastVote(s, operator, ballot, w, slot, validSlots).value;
      && Valid(s')
      && CastRecorded(s, s', operator, w, slot, t)
      && t < |s'.tallies| && s'.tallies[t].ballot.Same(ballot)
      && forall i :: 0 <= i < s.operatorsVoted && i != CastSlot(s, operator) ==>
           s'.tallies[s.votes[i].ballotIndex].ballot == s.tallies[s.votes[i].ballotIndex].ballot
  {
    var (t', s1) := IncrementOrCreate(s, ballot, w).value;
    t := t';
    var vote := OperatorVote(operator, slot, w, t);
    IncrementOrCreateKeeps(s, ballot, vote);
    RecordVoteKeeps(s, s1, ballot, vote);
    var v := CastSlot(s, operator);
    var s' := CastVote(s, operator, ballot, w, slot, validSlots).value;
    VoteBacksLiveTally(s', v);
    forall i | 0 <= i < s.operatorsVoted && i != v
      ensures s'.tallies[s.votes[i].ballotIndex].ballot == s.tallies[s.votes[i].ballotIndex].ballot
    {
      VoteBacksLiveTally(s, i);
      assert s'.votes[i] == s.votes[i];
      VoteBacksLiveTally(s', i);
    }
  }
}
