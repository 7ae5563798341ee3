/** The ballot box as a value, and what each of its operations does to it
    (core/src/ballot_box.rs). Loops over the fixed tables become searches for a slot. */
module BallotBoxSpec {
  import opened Common
  import opened StakeWeight

  /** `Ballot`: a root is a valid ballot unless it is all zero. */
  datatype Ballot = Ballot(root: Digest, isValid: bool) {
    /** `Ballot::eq`: an invalid ballot equals nothing, itself included. */
    predicate Same(other: Ballot) {
      isValid && other.isValid && root == other.root
    }
  }

  const NO_BALLOT := Ballot(0, false)

  function NewBallot(root: Digest): Ballot {
    Ballot(root, root != 0)
  }

  const NO_INDEX: U16 := U16_MAX
  const NO_SLOT: U64 := U64_MAX

  datatype BallotTally = BallotTally(index: U16, ballot: Ballot, weights: StakeWeights, tally: U64) {
    function Amount(m: Measure): nat {
      match m
      case Heads => tally
      case _ => weights.Amount(m)
    }
  }

  const EMPTY_TALLY := BallotTally(NO_INDEX, NO_BALLOT, ZERO_WEIGHTS, 0)

  datatype OperatorVote = OperatorVote(operator: Key, slotVoted: U64, weights: StakeWeights, ballotIndex: U16) {
    predicate IsEmpty() {
      ballotIndex == NO_INDEX
    }
  }

  const EMPTY_VOTE := OperatorVote(DEFAULT_KEY, 0, ZERO_WEIGHTS, NO_INDEX)

  type VoteTable = s: seq<OperatorVote> | |s| == MAX_OPERATORS witness Filled(MAX_OPERATORS, EMPTY_VOTE)
  type TallyTable = s: seq<BallotTally> | |s| == MAX_OPERATORS witness Filled(MAX_OPERATORS, EMPTY_TALLY)

  datatype Box = Box(
    epoch: U64,
    slotConsensus: U64,
    operatorsVoted: U64,
    uniqueBallots: U64,
    winning: Ballot,
    votes: VoteTable,
    tallies: TallyTable)
  {
    predicate IsConsensusReached() {
      slotConsensus != NO_SLOT || winning.isValid
    }

    predicate TieBreakerSet() {
      slotConsensus == NO_SLOT && winning.isValid
    }

    predicate HasBallot(ballot: Ballot) {
      FindTally(tallies, ballot, 0) < |tallies|
    }
  }

  function NewBox(epoch: U64): Box {
    Box(epoch, NO_SLOT, 0, 0, NO_BALLOT, Filled(MAX_OPERATORS, EMPTY_VOTE), Filled(MAX_OPERATORS, EMPTY_TALLY))
  }

  /** The first tally of a ballot from slot `i` on; the table length when there is none. */
  function FindTally(tallies: seq<BallotTally>, ballot: Ballot, i: nat): (t: nat)
    requires i <= |tallies|
    ensures i <= t <= |tallies|
    ensures t < |tallies| ==> tallies[t].ballot.Same(ballot)
    ensures forall j :: i <= j < t ==> !tallies[j].ballot.Same(ballot)
    decreases |tallies| - i
  {
    if i == |tallies| || tallies[i].ballot.Same(ballot) then i else FindTally(tallies, ballot, i + 1)
  }

  /** The first free tally slot from `i` on. */
  function FindFree(tallies: seq<BallotTally>, i: nat): (t: nat)
    requires i <= |tallies|
    ensures i <= t <= |tallies|
    ensures t < |tallies| ==> !tallies[t].ballot.isValid
    ensures forall j :: i <= j < t ==> tallies[j].ballot.isValid
    decreases |tallies| - i
  {
    if i == |tallies| || !tallies[i].ballot.isValid then i else FindFree(tallies, i + 1)
  }

  /** The vote slot an operator writes: its own if it voted before, else the first empty one. */
  function FindVoteSlot(votes: seq<OperatorVote>, operator: Key, i: nat): (v: nat)
    requires i <= |votes|
    ensures i <= v <= |votes|
    ensures v < |votes| ==> votes[v].operator == operator || votes[v].IsEmpty()
    ensures forall j :: i <= j < v ==> votes[j].operator != operator && !votes[j].IsEmpty()
    decreases |votes| - i
  {
    if i == |votes| || votes[i].operator == operator || votes[i].IsEmpty() then i
    else FindVoteSlot(votes, operator, i + 1)
  }

  function IncrementTally(t: BallotTally, w: StakeWeights): Result<BallotTally> {
    var weights :- Add(t.weights, w);
    var tally :- CheckedAdd64(t.tally, 1);
    Ok(t.(weights := weights, tally := tally))
  }

  function DecrementTally(t: BallotTally, w: StakeWeights): Result<BallotTally> {
    var weights :- Sub(t.weights, w);
    var tally :- CheckedSub(t.tally, 1, ArithmeticOverflow);
    Ok(t.(weights := weights, tally := tally))
  }

  /** `increment_or_create_ballot_tally`: the slot the vote was counted in, and the box after. */
  function IncrementOrCreate(s: Box, ballot: Ballot, w: StakeWeights): Result<(nat, Box)> {
    var t := FindTally(s.tallies, ballot, 0);
    if t < |s.tallies| then
      var tally :- IncrementTally(s.tallies[t], w);
      Ok((t, s.(tallies := s.tallies[t := tally])))
    else
      var f := FindFree(s.tallies, 0);
      if f == |s.tallies| then Err(BallotTallyFull)
      else
        var unique :- CheckedAdd64(s.uniqueBallots, 1);
        Ok((f, s.(tallies := s.tallies[f := BallotTally(f, ballot, w, 1)], uniqueBallots := unique)))
  }

  /** A re-vote first takes the old vote out of its ballot, wiping the ballot when nobody is left on it. */
  function RetractVote(s: Box, vote: OperatorVote): Result<Box> {
    if vote.ballotIndex >= |s.tallies| then Ok(s)
    else
      var tally :- DecrementTally(s.tallies[vote.ballotIndex], vote.weights);
      if tally.tally == 0 then
        var unique :- CheckedSub(s.uniqueBallots, 1, ArithmeticOverflow);
        Ok(s.(tallies := s.tallies[vote.ballotIndex := EMPTY_TALLY], uniqueBallots := unique))
      else Ok(s.(tallies := s.tallies[vote.ballotIndex := tally]))
  }

  /** The vote loop of `cast_vote`: replace the operator's vote or take the first empty slot. */
  function RecordVote(s: Box, operator: Key, t: nat, w: StakeWeights, slot: U64): Result<Box>
    requires t < |s.tallies|
  {
    var v := FindVoteSlot(s.votes, operator, 0);
    if v == |s.votes| then Err(OperatorVotesFull)
    else
      var vote := OperatorVote(operator, slot, w, t);
      if s.votes[v].operator == operator then
        if s.IsConsensusReached() then Err(ConsensusAlreadyReached)
        else
          var s' :- RetractVote(s, s.votes[v]);
          Ok(s'.(votes := s.votes[v := vote]))
      else
        var voted :- CheckedAdd64(s.operatorsVoted, 1);
        Ok(s.(votes := s.votes[v := vote], operatorsVoted := voted))
  }

  /** `is_voting_valid`: open until consensus and for a fixed number of slots after; closed by a tie-break. */
  function IsVotingValid(s: Box, slot: U64, validSlots: U64): Result<bool> {
    if s.TieBreakerSet() then Ok(false)
    else if s.IsConsensusReached() then
      var last :- CheckedAdd64(s.slotConsensus, validSlots);
      Ok(slot <= last)
    else Ok(true)
  }

  function CastVote(s: Box, operator: Key, ballot: Ballot, w: StakeWeights, slot: U64, validSlots: U64): Result<Box> {
    var open :- IsVotingValid(s, slot, validSlots);
    if !open then Err(VotingNotValid)
    else if !ballot.isValid then Err(BadBallot)
    else
      var (t, s') :- IncrementOrCreate(s, ballot, w);
      RecordVote(s', operator, t, w, slot)
  }

  /** The consensus fraction; the source fixes it at two thirds. */
  datatype Threshold = Threshold(num: nat, den: nat) {
    predicate Valid() {
      num <= den < 2 * num
    }

    predicate Met(weight: nat, total: nat) {
      weight * den >= total * num
    }
  }

  const TWO_THIRDS := Threshold(2, 3)

  /** `max_by_key`: the last tally of largest stake among the first `n`. */
  function MaxTally(tallies: seq<BallotTally>, n: nat): (t: nat)
    requires 0 < n <= |tallies|
    ensures t < n
    ensures forall j :: 0 <= j < n ==> tallies[j].weights.total <= tallies[t].weights.total
    ensures forall j :: t < j < n ==> tallies[j].weights.total < tallies[t].weights.total
  {
    if n == 1 then 0
    else
      var m := MaxTally(tallies, n - 1);
      if tallies[m].weights.total <= tallies[n - 1].weights.total then n - 1 else m
  }

  /** `tally_votes`: declare the heaviest ballot the winner once it holds the consensus fraction. */
  function TallyVotes(s: Box, th: Threshold, total: U128, slot: U64): Result<Box> {
    if s.slotConsensus != NO_SLOT then Ok(s)
    else if total == 0 then Err(DenominatorIsZero)
    else
      var t := MaxTally(s.tallies, |s.tallies|);
      if th.Met(s.tallies[t].weights.total, total) && !s.winning.isValid
      then Ok(s.(slotConsensus := slot, winning := s.tallies[t].ballot))
      else Ok(s)
  }

  function SetTieBreaker(s: Box, root: Digest, currentEpoch: U64, epochsBeforeStall: U64): Result<Box> {
    if s.IsConsensusReached() then Err(ConsensusAlreadyReached)
    else
      var stall :- CheckedAdd64(s.epoch, epochsBeforeStall);
      if currentEpoch < stall then Err(VotingNotFinalized)
      else if !s.HasBallot(NewBallot(root)) then Err(TieBreakerNotInPriorVotes)
      else Ok(s.(winning := NewBallot(root)))
  }

  function GetWinningTally(s: Box): Result<BallotTally> {
    if !s.winning.isValid then Err(ConsensusNotReached)
    else
      var t := FindTally(s.tallies, s.winning, 0);
      if t == |s.tallies| then Err(BallotTallyNotFound) else Ok(s.tallies[t])
  }
}
