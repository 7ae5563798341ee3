/** The ballot box against a plain map from operators to their latest choice. */
module BallotBoxRefinement {
  import opened Common
  import opened Sums
  import opened StakeWeight
  import opened BallotBoxSpec
  import opened BallotBoxProofs

  /** What an operator last voted for, and with what stake. */
  datatype Choice = Choice(root: Digest, weights: StakeWeights)

  function ChoiceAt(s: Box, i: nat): Choice
    requires i < |s.votes| && s.votes[i].ballotIndex < |s.tallies|
  {
    Choice(s.tallies[s.votes[i].ballotIndex].ballot.root, s.votes[i].weights)
  }

  /** The map that the first `n` vote slots stand for. */
  ghost function Choices(s: Box, n: nat): map<Key, Choice>
    requires VotesOk(s.votes, s.operatorsVoted) && n <= s.operatorsVoted
  {
    if n == 0 then map[] else Choices(s, n - 1)[s.votes[n - 1].operator := ChoiceAt(s, n - 1)]
  }

  lemma {:induction false} ChoiceOfSlot(s: Box, n: nat, i: nat)
    requires VotesOk(s.votes, s.operatorsVoted) && i < n <= s.operatorsVoted
    ensures s.votes[i].operator in Choices(s, n) && Choices(s, n)[s.votes[i].operator] == ChoiceAt(s, i)
  {
    if i < n - 1 {
      ChoiceOfSlot(s, n - 1, i);
    }
  }

  lemma {:induction false} SlotOfChoice(s: Box, n: nat, k: Key) returns (i: nat)
    requires VotesOk(s.votes, s.operatorsVoted) && n <= s.operatorsVoted && k in Choices(s, n)
    ensures i < n && s.votes[i].operator == k && Choices(s, n)[k] == ChoiceAt(s, i)
  {
    if k == s.votes[n - 1].operator {
      i := n - 1;
    } else {
      i := SlotOfChoice(s, n - 1, k);
    }
  }

  ghost function VoteMap(s: Box): map<Key, Choice>
    requires Valid(s)
  {
    Choices(s, s.operatorsVoted)
  }

  function Counts(c: Choice, root: Digest, m: Measure): nat {
    if c.root == root then c.weights.Amount(m) else 0
  }

  /** The support of a root, summed over the plain map in any order. */
  ghost function Support(votes: map<Key, Choice>, root: Digest, m: Measure): nat
    decreases |votes|
  {
    if votes == map[] then 0
    else
      var k :| k in votes;
      Counts(votes[k], root, m) + Support(votes - {k}, root, m)
  }

  lemma {:induction false} SupportSplit(votes: map<Key, Choice>, k: Key, root: Digest, m: Measure)
    requires k in votes
    ensures Support(votes, root, m) == Counts(votes[k], root, m) + Support(votes - {k}, root, m)
    decreases |votes|
  {
    var j :| j in votes && Support(votes, root, m) == Counts(votes[j], root, m) + Support(votes - {j}, root, m);
    if j != k {
      SupportSplit(votes - {j}, k, root, m);
      SupportSplit(votes - {k}, j, root, m);
      assert votes - {j} - {k} == votes - {k} - {j};
    }
  }

  lemma {:induction false} SupportInsert(votes: map<Key, Choice>, k: Key, c: Choice, root: Digest, m: Measure)
    requires k !in votes
    ensures Support(votes[k := c], root, m) == Support(votes, root, m) + Counts(c, root, m)
  {
    SupportSplit(votes[k := c], k, root, m);
    assert votes[k := c] - {k} == votes;
  }

  lemma {:induction false} ChoicesStep(s: Box, n: nat)
    requires VotesOk(s.votes, s.operatorsVoted) && n < s.operatorsVoted
    ensures s.votes[n].operator !in Choices(s, n)
    ensures Choices(s, n + 1) == Choices(s, n)[s.votes[n].operator := ChoiceAt(s, n)]
  {
    if s.votes[n].operator in Choices(s, n) {
      var i := SlotOfChoice(s, n, s.votes[n].operator);
    }
  }

  /** Votes back slot `t` exactly when they name its root. */
  lemma {:induction false} RootDecidesSlot(s: Box, i: nat, t: nat)
    requires Valid(s) && i < s.operatorsVoted
    requires t < |s.tallies| && s.tallies[t].ballot.isValid
    ensures s.votes[i].ballotIndex == t <==> ChoiceAt(s, i).root == s.tallies[t].ballot.root
  {
    VoteBacksLiveTally(s, i);
    var u := s.votes[i].ballotIndex;
    assert u < t ==> !s.tallies[u].ballot.Same(s.tallies[t].ballot);
    assert t < u ==> !s.tallies[t].ballot.Same(s.tallies[u].ballot);
  }

  lemma {:induction false} SupportIsBacking(s: Box, n: nat, t: nat, m: Measure)
    requires Valid(s) && n <= s.operatorsVoted
    requires t < |s.tallies| && s.tallies[t].ballot.isValid
    ensures Support(Choices(s, n), s.tallies[t].ballot.root, m) == Backing(s.votes[..n], t, m)
  {
    if n == 0 {
      assert Choices(s, 0) == map[];
      assert s.votes[..0] == [];
    } else {
      SupportIsBacking(s, n - 1, t, m);
      ChoicesStep(s, n - 1);
      SupportInsert(Choices(s, n - 1), s.votes[n - 1].operator, ChoiceAt(s, n - 1), s.tallies[t].ballot.root, m);
      RootDecidesSlot(s, n - 1, t);
      BackingSnoc(s.votes, n - 1, t, m);
    }
  }

  lemma {:induction false} BackingSnoc(votes: seq<OperatorVote>, n: nat, t: nat, m: Measure)
    requires n < |votes|
    ensures Backing(votes[..n + 1], t, m) == Backing(votes[..n], t, m) + Contribution(votes[n], t, m)
  {
    assert Contributions(votes[..n + 1], t, m) == Contributions(votes[..n], t, m) + [Contribution(votes[n], t, m)];
    SumSnoc(Contributions(votes[..n], t, m), Contribution(votes[n], t, m));
  }

  lemma {:induction false} BackingOfRecorded(votes: seq<OperatorVote>, voted: nat, t: nat, m: Measure)
    requires VotesOk(votes, voted) && t < MAX_OPERATORS
    ensures Backing(votes, t, m) == Backing(votes[..voted], t, m)
  {
    assert Contributions(votes, t, m) == Contributions(votes[..voted], t, m) + Contributions(votes[voted..], t, m);
    SumConcat(Contributions(votes[..voted], t, m), Contributions(votes[voted..], t, m));
    SumZero(Contributions(votes[voted..], t, m));
  }

  /** The incremental tallies, with holes left by wiped ballots, agree with the plain map: each live
      tally holds the head count, total weight and every group weight of the operators whose latest
      choice is its root. */
  lemma {:induction false} TalliesAgree(s: Box, t: nat, m: Measure)
    requires Valid(s) && t < |s.tallies| && s.tallies[t].ballot.isValid
    ensures s.tallies[t].Amount(m) == Support(VoteMap(s), s.tallies[t].ballot.root, m)
  {
    SupportIsBacking(s, s.operatorsVoted, t, m);
    BackingOfRecorded(s.votes, s.operatorsVoted, t, m);
    assert s.tallies[t].Amount(m) == Backing(s.votes, t, m) + Contribution(EMPTY_VOTE, t, m);
  }

  ghost function RootsOf(tallies: seq<BallotTally>): set<Digest> {
    set t | 0 <= t < |tallies| && tallies[t].ballot.isValid :: tallies[t].ballot.root
  }

  lemma {:induction false} RootsSnoc(tallies: seq<BallotTally>, last: BallotTally)
    ensures RootsOf(tallies + [last]) == RootsOf(tallies) + if last.ballot.isValid then {last.ballot.root} else {}
  {
    var all := tallies + [last];
    var n := |tallies|;
    forall r | r in RootsOf(tallies) ensures r in RootsOf(all) {
      var t :| 0 <= t < n && tallies[t].ballot.isValid && tallies[t].ballot.root == r;
      assert all[t] == tallies[t];
    }
    if last.ballot.isValid {
      assert all[n].ballot.root in RootsOf(all);
    }
    forall r | r in RootsOf(all) ensures r in RootsOf(tallies) || (last.ballot.isValid && r == last.ballot.root) {
      var t :| 0 <= t < |all| && all[t].ballot.isValid && all[t].ballot.root == r;
      assert t < n ==> tallies[t] == all[t];
    }
  }

  lemma {:induction false} RootIsFresh(tallies: seq<BallotTally>, n: nat)
    requires n < |tallies| && tallies[n].ballot.isValid
    requires forall t :: 0 <= t < n ==> !tallies[t].ballot.Same(tallies[n].ballot)
    ensures tallies[n].ballot.root !in RootsOf(tallies[..n])
  {
  }

  lemma {:induction false} CountRoots(tallies: seq<BallotTally>, n: nat)
    requires n <= |tallies|
    requires forall t, u :: 0 <= t < u < |tallies| ==> !tallies[t].ballot.Same(tallies[u].ballot)
    ensures |RootsOf(tallies[..n])| == Sum(ValidFlags(tallies)[..n])
  {
    if n == 0 {
      assert RootsOf(tallies[..0]) == {};
    } else {
      CountRoots(tallies, n - 1);
      assert tallies[..n] == tallies[..n - 1] + [tallies[n - 1]];
      RootsSnoc(tallies[..n - 1], tallies[n - 1]);
      SumPrefix(ValidFlags(tallies), n - 1);
      if tallies[n - 1].ballot.isValid {
        RootIsFresh(tallies, n - 1);
      }
    }
  }

  lemma {:induction false} CountChoices(s: Box, n: nat)
    requires VotesOk(s.votes, s.operatorsVoted) && n <= s.operatorsVoted
    ensures |Choices(s, n)| == n
  {
    if n > 0 {
      CountChoices(s, n - 1);
      ChoicesStep(s, n - 1);
    }
  }

  ghost function ChosenRoots(votes: map<Key, Choice>): set<Digest> {
    set k | k in votes :: votes[k].root
  }

  lemma {:induction false} LiveRootIsChosen(s: Box, t: nat)
    requires Valid(s) && t < |s.tallies| && s.tallies[t].ballot.isValid
    ensures s.tallies[t].ballot.root in ChosenRoots(VoteMap(s))
  {
    var v := BackerOf(s, t);
    ChoiceOfSlot(s, s.operatorsVoted, v);
  }

  lemma {:induction false} ChosenRootIsLive(s: Box, k: Key)
    requires Valid(s) && k in VoteMap(s)
    ensures VoteMap(s)[k].root in RootsOf(s.tallies)
  {
    var i := SlotOfChoice(s, s.operatorsVoted, k);
    VoteBacksLiveTally(s, i);
  }

  lemma {:induction false} RootsAgree(s: Box)
    requires Valid(s)
    ensures ChosenRoots(VoteMap(s)) == RootsOf(s.tallies)
  {
    var chosen, live := ChosenRoots(VoteMap(s)), RootsOf(s.tallies);
    forall r | r in live ensures r in chosen {
      var t :| 0 <= t < |s.tallies| && s.tallies[t].ballot.isValid && s.tallies[t].ballot.root == r;
      LiveRootIsChosen(s, t);
    }
    forall r | r in chosen ensures r in live {
      var k :| k in VoteMap(s) && VoteMap(s)[k].root == r;
      ChosenRootIsLive(s, k);
    }
  }

  /** The counters count: `operators_voted` is the size of the map, `unique_ballots` the number of
      distinct roots in it. */
  lemma {:induction false} CountersAgree(s: Box)
    requires Valid(s)
    ensures s.operatorsVoted == |VoteMap(s)|
    ensures s.uniqueBallots == |ChosenRoots(VoteMap(s))|
  {
    CountChoices(s, s.operatorsVoted);
    CountRoots(s.tallies, |s.tallies|);
    assert s.tallies[..|s.tallies|] == s.tallies;
    assert ValidFlags(s.tallies)[..|s.tallies|] == ValidFlags(s.tallies);
    RootsAgree(s);
  }

  /** Every live tally has somebody on it. */
  lemma {:induction false} BackerOf(s: Box, t: nat) returns (v: nat)
    requires Valid(s) && t < |s.tallies| && s.tallies[t].ballot.isValid
    ensures v < s.operatorsVoted && s.votes[v].ballotIndex == t
  {
    assert s.tallies[t].Amount(Heads) == Backing(s.votes, t, Heads) + Contribution(EMPTY_VOTE, t, Heads);
    SumZero(Contributions(s.votes, t, Heads));
    v :| 0 <= v < |s.votes| && Contributions(s.votes, t, Heads)[v] != 0;
  }

  /** Replacing or appending one vote, with every other choice kept, is one map update. */
  lemma {:induction false} RecordedIsUpdate(s: Box, s': Box, operator: Key, w: StakeWeights, slot: U64, t: U16, n: nat)
    requires VotesOk(s.votes, s.operatorsVoted) && VotesOk(s'.votes, s'.operatorsVoted)
    requires CastRecorded(s, s', operator, w, slot, t) && t < |s'.tallies|
    requires forall i :: 0 <= i < s.operatorsVoted && i != CastSlot(s, operator) ==> ChoiceAt(s', i) == ChoiceAt(s, i)
    requires n <= s'.operatorsVoted
    ensures Choices(s', n)
         == if CastSlot(s, operator) < n
            then Choices(s, if n <= s.operatorsVoted then n else n - 1)[
                   operator := Choice(s'.tallies[t].ballot.root, w)]
            else Choices(s, n)
  {
    var v := CastSlot(s, operator);
    if n == 0 {
    } else {
      var i := n - 1;
      RecordedIsUpdate(s, s', operator, w, slot, t, i);
      ChoicesStep(s', i);
      if i < s.operatorsVoted {
        ChoicesStep(s, i);
        assert i != v ==> s'.votes[i] == s.votes[i];
      }
    }
  }

  /** The refinement step: a successful cast is one map update, re-votes included. */
  lemma {:induction false} CastVoteUpdatesMap(s: Box, operator: Key, ballot: Ballot, w: StakeWeights, slot: U64,
                                              validSlots: U64)
    requires Valid(s) && operator != DEFAULT_KEY
    requires CastVote(s, operator, ballot, w, slot, validSlots).Ok?
    ensures Valid(CastVote(s, operator, ballot, w, slot, validSlots).value)
    ensures VoteMap(CastVote(s, operator, ballot, w, slot, validSlots).value)
         == VoteMap(s)[operator := Choice(ballot.root, w)]
  {
    var t := CastVoteKeeps(s, operator, ballot, w, slot, validSlots);
    var s' := CastVote(s, operator, ballot, w, slot, validSlots).value;
    forall i | 0 <= i < s.operatorsVoted && i != CastSlot(s, operator)
      ensures ChoiceAt(s', i) == ChoiceAt(s, i)
    {
      assert s'.votes[i] == s.votes[i];
    }
    RecordedIsUpdate(s, s', operator, w, slot, t, s'.operatorsVoted);
  }

  // ------------------------------------------------------------------
  // Totals across ballots
  // ------------------------------------------------------------------

  function Tallied(tallies: seq<BallotTally>, m: Measure): (r: seq<nat>)
    ensures |r| == |tallies|
  {
    seq(|tallies|, t requires 0 <= t < |tallies| => tallies[t].Amount(m))
  }

  function Cast(votes: seq<OperatorVote>, n: nat, m: Measure): (r: seq<nat>)
    ensures |r| == |votes|
  {
    seq(|votes|, i requires 0 <= i < |votes| => if votes[i].ballotIndex < n then votes[i].weights.Amount(m) else 0)
  }

  function Backings(votes: seq<OperatorVote>, n: nat, m: Measure): (r: seq<nat>)
    ensures |r| == n
  {
    seq(n, t requires 0 <= t < n => Backing(votes, t, m))
  }

  /** One vote's amount, at the slot of its ballot and nowhere else. */
  function OneHot(vote: OperatorVote, n: nat, m: Measure): (r: seq<nat>)
    ensures |r| == n
  {
    seq(n, t requires 0 <= t < n => Contribution(vote, t, m))
  }

  lemma {:induction false} SumOneHot(vote: OperatorVote, n: nat, m: Measure)
    ensures Sum(OneHot(vote, n, m)) == if vote.ballotIndex < n then vote.weights.Amount(m) else 0
  {
    var zeros := Filled<nat>(n, 0);
    SumZero(zeros);
    if vote.ballotIndex < n {
      assert OneHot(vote, n, m) == zeros[vote.ballotIndex := vote.weights.Amount(m)];
      SumUpdate(zeros, vote.ballotIndex, vote.weights.Amount(m));
    } else {
      assert OneHot(vote, n, m) == zeros;
    }
  }

  /** One more vote adds its one-hot row to the backings. */
  lemma {:induction false} BackingsStep(votes: seq<OperatorVote>, k: nat, n: nat, m: Measure)
    requires k < |votes|
    ensures Sum(Backings(votes[..k + 1], n, m)) == Sum(Backings(votes[..k], n, m)) + Sum(OneHot(votes[k], n, m))
  {
    forall t | 0 <= t < n
      ensures Backings(votes[..k + 1], n, m)[t] == Backings(votes[..k], n, m)[t] + OneHot(votes[k], n, m)[t]
    {
      BackingSnoc(votes, k, t, m);
    }
    SumPointwise(Backings(votes[..k], n, m), OneHot(votes[k], n, m), Backings(votes[..k + 1], n, m));
  }

  lemma {:induction false} CastStep(votes: seq<OperatorVote>, k: nat, n: nat, m: Measure)
    requires k < |votes|
    ensures Sum(Cast(votes[..k + 1], n, m))
         == Sum(Cast(votes[..k], n, m)) + if votes[k].ballotIndex < n then votes[k].weights.Amount(m) else 0
  {
    var amount := if votes[k].ballotIndex < n then votes[k].weights.Amount(m) else 0;
    assert Cast(votes[..k + 1], n, m) == Cast(votes[..k], n, m) + [amount];
    SumSnoc(Cast(votes[..k], n, m), amount);
  }

  lemma {:induction false} DoubleCountingUpTo(votes: seq<OperatorVote>, k: nat, n: nat, m: Measure)
    requires k <= |votes|
    ensures Sum(Backings(votes[..k], n, m)) == Sum(Cast(votes[..k], n, m))
  {
    if k == 0 {
      SumZero(Backings(votes[..0], n, m));
    } else {
      DoubleCountingUpTo(votes, k - 1, n, m);
      BackingsStep(votes, k - 1, n, m);
      CastStep(votes, k - 1, n, m);
      SumOneHot(votes[k - 1], n, m);
    }
  }

  /** Summing the tallies by ballot or the votes by operator gives the same total. */
  lemma {:induction false} DoubleCounting(votes: seq<OperatorVote>, n: nat, m: Measure)
    ensures Sum(Backings(votes, n, m)) == Sum(Cast(votes, n, m))
  {
    DoubleCountingUpTo(votes, |votes|, n, m);
    assert votes[..|votes|] == votes;
  }

  /** Nothing is lost or counted twice: all tallies together are all recorded votes together. */
  lemma {:induction false} TalliedIsCast(s: Box, m: Measure)
    requires Valid(s)
    ensures Sum(Tallied(s.tallies, m)) == Sum(Cast(s.votes, MAX_OPERATORS, m))
  {
    assert Tallied(s.tallies, m) == Backings(s.votes, MAX_OPERATORS, m) by {
      forall t | 0 <= t < |s.tallies|
        ensures s.tallies[t].Amount(m) == Backing(s.votes, t, m)
      {
        assert s.tallies[t].Amount(m) == Backing(s.votes, t, m) + Contribution(EMPTY_VOTE, t, m);
      }
    }
    DoubleCounting(s.votes, MAX_OPERATORS, m);
  }

  // ------------------------------------------------------------------
  // Capacity
  // ------------------------------------------------------------------

  /** Every live ballot has a voter of its own, so ballots never outnumber voters. */
  lemma {:induction false} BallotsWithinVoters(s: Box)
    requires Valid(s)
    ensures s.uniqueBallots <= s.operatorsVoted
  {
    SumMonotone(ValidFlags(s.tallies), Tallied(s.tallies, Heads));
    TalliedIsCast(s, Heads);
    var cast := Cast(s.votes, MAX_OPERATORS, Heads);
    assert cast == cast[..s.operatorsVoted] + cast[s.operatorsVoted..];
    SumConcat(cast[..s.operatorsVoted], cast[s.operatorsVoted..]);
    SumZero(cast[s.operatorsVoted..]);
    SumOfFlags(cast[..s.operatorsVoted]);
  }

  /** A new ballot is refused for want of a slot exactly when every slot holds another live ballot. */
  lemma {:induction false} BallotTallyFullExactly(s: Box, ballot: Ballot, w: StakeWeights)
    requires Valid(s) && ballot.isValid
    ensures IncrementOrCreate(s, ballot, w) == Err(BallotTallyFull)
      <==> !s.HasBallot(ballot) && s.uniqueBallots == MAX_OPERATORS
  {
    SumOfFlags(ValidFlags(s.tallies));
    var f := FindFree(s.tallies, 0);
    if f == |s.tallies| {
      assert forall t :: 0 <= t < |s.tallies| ==> ValidFlags(s.tallies)[t] == 1;
    } else {
      assert ValidFlags(s.tallies)[f] == 0;
    }
  }

  lemma {:induction false} StrangerNeedsSlot(s: Box, operator: Key)
    requires Valid(s) && operator != DEFAULT_KEY
    ensures CastSlot(s, operator) == MAX_OPERATORS <==> s.operatorsVoted == MAX_OPERATORS && operator !in VoteMap(s)
  {
    VoteSlot(s.votes, s.operatorsVoted, operator);
    var v := CastSlot(s, operator);
    if v < s.operatorsVoted {
      ChoiceOfSlot(s, s.operatorsVoted, v);
    }
    if operator in VoteMap(s) {
      var i := SlotOfChoice(s, s.operatorsVoted, operator);
    }
  }

  /** Neither table can overflow before every slot has a voter, and after that the vote table
      refuses exactly the strangers. */
  lemma {:induction false} CapacityExactly(s: Box, operator: Key, ballot: Ballot, w: StakeWeights, slot: U64,
                                           validSlots: U64)
    requires Valid(s) && operator != DEFAULT_KEY
    requires IsVotingValid(s, slot, validSlots) == Ok(true) && ballot.isValid
    ensures CastVote(s, operator, ballot, w, slot, validSlots) == Err(BallotTallyFull)
       <==> !s.HasBallot(ballot) && s.uniqueBallots == MAX_OPERATORS
    ensures CastVote(s, operator, ballot, w, slot, validSlots) == Err(OperatorVotesFull)
       <==> IncrementOrCreate(s, ballot, w).Ok? && s.operatorsVoted == MAX_OPERATORS && operator !in VoteMap(s)
    ensures s.uniqueBallots == MAX_OPERATORS ==> s.operatorsVoted == MAX_OPERATORS
  {
    BallotTallyFullExactly(s, ballot, w);
    BallotsWithinVoters(s);
    StrangerNeedsSlot(s, operator);
  }
}
