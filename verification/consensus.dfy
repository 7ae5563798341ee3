/** Winner safety: what consensus means for the tallies, and that no later step disturbs it. */
module Consensus {
  import opened Common
  import opened Sums
  import opened StakeWeight
  import opened BallotBoxSpec
  import opened BallotBoxProofs
  import opened BallotBoxRefinement

  /** The slot of the winning ballot. */
  function WinnerSlot(s: Box): nat {
    FindTally(s.tallies, s.winning, 0)
  }

  /** A declared winner has a live tally, holding the consensus fraction when votes declared it;
      while nothing is declared, no ballot holds the fraction. */
  ghost predicate WinnerOk(s: Box, th: Threshold, total: nat) {
    && (s.slotConsensus != NO_SLOT ==> s.winning.isValid)
    && (s.winning.isValid ==> WinnerSlot(s) < |s.tallies|)
    && (s.slotConsensus != NO_SLOT ==> th.Met(s.tallies[WinnerSlot(s)].weights.total, total))
    && (!s.IsConsensusReached() && total > 0 ==>
         forall t :: 0 <= t < |s.tallies| ==> !th.Met(s.tallies[t].weights.total, total))
  }

  lemma {:induction false} ThresholdNeedsWeight(th: Threshold, total: nat)
    requires th.Valid() && total > 0
    ensures !th.Met(0, total)
  {
    assert total * th.num > 0;
  }

  lemma {:induction false} NewBoxWinnerOk(epoch: U64, th: Threshold, total: nat)
    requires th.Valid()
    ensures WinnerOk(NewBox(epoch), th, total)
  {
    if total > 0 {
      ThresholdNeedsWeight(th, total);
    }
  }

  /** The vote instruction on the box: cast, then tally. */
  function Vote(s: Box, th: Threshold, total: U128, operator: Key, ballot: Ballot, w: StakeWeights,
                slot: U64, validSlots: U64): Result<Box>
  {
    var s' :- CastVote(s, operator, ballot, w, slot, validSlots);
    TallyVotes(s', th, total, slot)
  }

  lemma {:induction false} SlotOfBallot(tallies: seq<BallotTally>, unique: nat, ballot: Ballot, t: nat)
    requires TalliesOk(tallies, unique)
    requires t < |tallies| && tallies[t].ballot.Same(ballot)
    ensures FindTally(tallies, ballot, 0) == t
  {
    var f := FindTally(tallies, ballot, 0);
    assert tallies[f].ballot.Same(tallies[t].ballot);
  }

  ghost predicate SomeTallyMeets(s: Box, th: Threshold, total: nat) {
    exists t :: 0 <= t < |s.tallies| && th.Met(s.tallies[t].weights.total, total)
  }

  /** Tallying declares a ballot, in the slot it happens in, exactly when one holds the fraction. */
  lemma {:induction false} TallyVotesKeeps(s: Box, th: Threshold, total: U128, slot: U64)
    requires Valid(s) && th.Valid() && slot != NO_SLOT
    requires s.IsConsensusReached() ==> WinnerOk(s, th, total)
    requires TallyVotes(s, th, total, slot).Ok?
    ensures var s' := TallyVotes(s, th, total, slot).value;
      && Valid(s') && WinnerOk(s', th, total)
      && s' == s.(slotConsensus := s'.slotConsensus, winning := s'.winning)
      && (s.IsConsensusReached() ==> s' == s)
      && (!s.IsConsensusReached() ==>
           && s'.slotConsensus == (if SomeTallyMeets(s, th, total) then slot else NO_SLOT)
           && s'.winning.isValid == SomeTallyMeets(s, th, total))
  {
    var s' := TallyVotes(s, th, total, slot).value;
    if !s.IsConsensusReached() {
      var t := MaxTally(s.tallies, |s.tallies|);
      ThresholdNeedsWeight(th, total);
      if th.Met(s.tallies[t].weights.total, total) {
        SlotOfBallot(s.tallies, s.uniqueBallots, s'.winning, t);
      } else {
        forall u | 0 <= u < |s.tallies|
          ensures !th.Met(s.tallies[u].weights.total, total)
        {
          MetIsMonotone(th, s.tallies[u].weights.total, s.tallies[t].weights.total, total);
        }
      }
    }
  }

  lemma {:induction false} MetIsMonotone(th: Threshold, lighter: nat, heavier: nat, total: nat)
    requires lighter <= heavier
    ensures th.Met(lighter, total) ==> th.Met(heavier, total)
  {
    assert lighter * th.den <= heavier * th.den;
  }

  /** Once a winner is declared, a late vote only adds: the winner keeps its slot and its weight
      does not drop. */
  lemma {:induction false} LateVoteKeepsWinner(s: Box, th: Threshold, total: nat, operator: Key, ballot: Ballot,
                                               w: StakeWeights,
                            slot: U64, validSlots: U64)
    requires Valid(s) && WinnerOk(s, th, total) && s.IsConsensusReached()
    requires operator != DEFAULT_KEY
    requires CastVote(s, operator, ballot, w, slot, validSlots).Ok?
    ensures var s' := CastVote(s, operator, ballot, w, slot, validSlots).value;
      && Valid(s') && WinnerOk(s', th, total)
      && s'.winning == s.winning && s'.slotConsensus == s.slotConsensus
      && WinnerSlot(s') == WinnerSlot(s)
      && s'.tallies[WinnerSlot(s)].weights.total >= s.tallies[WinnerSlot(s)].weights.total
  {
    var t := CastVoteKeeps(s, operator, ballot, w, slot, validSlots);
    var s' := CastVote(s, operator, ballot, w, slot, validSlots).value;
    var win := WinnerSlot(s);
    var (t', s1) := IncrementOrCreate(s, ballot, w).value;
    assert s'.tallies == s1.tallies;
    assert s'.tallies[win].ballot == s.tallies[win].ballot;
    assert s'.tallies[win].weights.total >= s.tallies[win].weights.total;
    SlotOfBallot(s'.tallies, s'.uniqueBallots, s'.winning, win);
    MetIsMonotone(th, s.tallies[win].weights.total, s'.tallies[win].weights.total, total);
  }

  /** The vote instruction keeps the box valid and a declared winner in place for good. */
  lemma {:induction false} VoteKeeps(s: Box, th: Threshold, total: U128, operator: Key, ballot: Ballot, w: StakeWeights,
                  slot: U64, validSlots: U64)
    requires Valid(s) && WinnerOk(s, th, total) && th.Valid()
    requires operator != DEFAULT_KEY && slot != NO_SLOT
    requires Vote(s, th, total, operator, ballot, w, slot, validSlots).Ok?
    ensures var s' := Vote(s, th, total, operator, ballot, w, slot, validSlots).value;
      && Valid(s') && WinnerOk(s', th, total)
      && VoteMap(s') == VoteMap(s)[operator := Choice(ballot.root, w)]
      && (s.IsConsensusReached() ==>
           s'.winning == s.winning && s'.slotConsensus == s.slotConsensus
           && WinnerSlot(s') == WinnerSlot(s) < |s.tallies|
           && s'.tallies[WinnerSlot(s)].weights.total >= s.tallies[WinnerSlot(s)].weights.total)
  {
    CastVoteUpdatesMap(s, operator, ballot, w, slot, validSlots);
    var t := CastVoteKeeps(s, operator, ballot, w, slot, validSlots);
    var s1 := CastVote(s, operator, ballot, w, slot, validSlots).value;
    if s.IsConsensusReached() {
      LateVoteKeepsWinner(s, th, total, operator, ballot, w, slot, validSlots);
    }
    TallyVotesKeeps(s1, th, total, slot);
    SameTablesSameMap(s1, Vote(s, th, total, operator, ballot, w, slot, validSlots).value, s1.operatorsVoted);
  }

  lemma {:induction false} SameTablesSameMap(s: Box, s': Box, n: nat)
    requires VotesOk(s.votes, s.operatorsVoted) && n <= s.operatorsVoted == s'.operatorsVoted
    requires s'.votes == s.votes && s'.tallies == s.tallies
    ensures Choices(s', n) == Choices(s, n)
  {
    if n > 0 {
      SameTablesSameMap(s, s', n - 1);
    }
  }

  /** The tie-break names a ballot that has votes, and touches nothing else. */
  lemma {:induction false} TieBreakerKeeps(s: Box, th: Threshold, total: nat, root: Digest, currentEpoch: U64,
                                           epochsBeforeStall: U64)
    requires Valid(s) && WinnerOk(s, th, total)
    requires SetTieBreaker(s, root, currentEpoch, epochsBeforeStall).Ok?
    ensures var s' := SetTieBreaker(s, root, currentEpoch, epochsBeforeStall).value;
      && Valid(s') && WinnerOk(s', th, total) && s'.TieBreakerSet()
      && VoteMap(s') == VoteMap(s)
      && root in ChosenRoots(VoteMap(s))
  {
    var s' := SetTieBreaker(s, root, currentEpoch, epochsBeforeStall).value;
    SameTablesSameMap(s, s', s.operatorsVoted);
    LiveRootIsChosen(s, FindTally(s.tallies, NewBallot(root), 0));
  }

  /** The tie-break is granted exactly without consensus, after the stall, and for a root that some
      operator's latest vote is for. */
  lemma {:induction false} TieBreakerExactly(s: Box, root: Digest, currentEpoch: U64, epochsBeforeStall: U64)
    requires Valid(s)
    ensures SetTieBreaker(s, root, currentEpoch, epochsBeforeStall).Ok? <==>
      && !s.IsConsensusReached()
      && s.epoch + epochsBeforeStall <= U64_MAX && currentEpoch as int >= s.epoch + epochsBeforeStall
      && root != 0 && root in ChosenRoots(VoteMap(s))
  {
    var t := FindTally(s.tallies, NewBallot(root), 0);
    if t < |s.tallies| {
      LiveRootIsChosen(s, t);
    }
    if root != 0 && root in ChosenRoots(VoteMap(s)) {
      RootsAgree(s);
      var u :| 0 <= u < |s.tallies| && s.tallies[u].ballot.isValid && s.tallies[u].ballot.root == root;
      assert s.tallies[u].ballot.Same(NewBallot(root));
    }
  }

  /** With a winner declared, the winning tally is always found. */
  lemma {:induction false} WinningTallyFound(s: Box, th: Threshold, total: nat)
    requires Valid(s) && WinnerOk(s, th, total)
    ensures GetWinningTally(s).Ok? <==> s.IsConsensusReached()
    ensures s.IsConsensusReached() ==> GetWinningTally(s).value == s.tallies[WinnerSlot(s)]
  {
  }

  /** All ballots but one: what they hold together. */
  function AllBut(s: Box, t: nat): nat {
    if t < |s.tallies| then Sum(Tallied(s.tallies, Stake)[t := 0]) else 0
  }

  /** If no more weight was cast than the snapshot holds, the ballots other than a winner by votes
      together stay at or below the rest of it, and none of them could have won instead. */
  lemma {:induction false} OthersStayBelow(s: Box, th: Threshold, total: nat)
    requires Valid(s) && WinnerOk(s, th, total) && th.Valid() && total > 0
    requires s.slotConsensus != NO_SLOT
    requires Sum(Cast(s.votes, MAX_OPERATORS, Stake)) <= total
    ensures s.tallies[WinnerSlot(s)].weights.total <= total
    ensures AllBut(s, WinnerSlot(s)) <= total - s.tallies[WinnerSlot(s)].weights.total
    ensures forall t :: 0 <= t < |s.tallies| && t != WinnerSlot(s) ==> !th.Met(s.tallies[t].weights.total, total)
  {
    var win := WinnerSlot(s);
    var stakes := Tallied(s.tallies, Stake);
    TalliedIsCast(s, Stake);
    SumUpdate(stakes, win, 0);
    forall t | 0 <= t < |s.tallies| && t != win
      ensures !th.Met(s.tallies[t].weights.total, total)
    {
      SumAtLeast(stakes[win := 0], t);
      MajorityIsUnique(th, s.tallies[win].weights.total, s.tallies[t].weights.total, total);
    }
  }

  lemma {:induction false} MajorityIsUnique(th: Threshold, winner: nat, other: nat, total: nat)
    requires th.Valid() && total > 0 && winner + other <= total
    requires th.Met(winner, total)
    ensures !th.Met(other, total)
  {
    if th.Met(other, total) {
      assert (winner + other) * th.den >= 2 * th.num * total;
      assert total * th.den >= (winner + other) * th.den by { assert (total - winner - other) * th.den >= 0; }
      assert total * th.den < total * (2 * th.num) by { assert total * (2 * th.num - th.den) > 0; }
    }
  }
  /** At the fraction the program uses, a winner by votes holds at least twice what all other ballots
      hold together. */
  lemma {:induction false} TwoThirdsIsTwice(s: Box, total: nat)
    requires Valid(s) && WinnerOk(s, TWO_THIRDS, total) && total > 0
    requires s.slotConsensus != NO_SLOT
    requires Sum(Cast(s.votes, MAX_OPERATORS, Stake)) <= total
    ensures TWO_THIRDS.Valid()
    ensures s.tallies[WinnerSlot(s)].weights.total >= 2 * AllBut(s, WinnerSlot(s))
  {
    OthersStayBelow(s, TWO_THIRDS, total);
  }
}
