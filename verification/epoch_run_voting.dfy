/** When a vote or a tie-break is heard, and what consensus is, told from the votes that were accepted. */
module EpochRunVoting {
  import opened Common
  import opened Sums
  import opened StakeWeight
  import opened EpochRunSpec
  import opened EpochRunInvariants
  import opened EpochRunVotes
  import opened EpochRunClosing
  import opened EpochRunTheorems
  import opened EpochRunClock
  import B = BallotBoxSpec
  import BallotBoxProofs
  import Refinement = BallotBoxRefinement
  import Capacity = BallotBoxCapacity
  import Consensus
  import E = EpochStateSpec

  // ------------------------------------------------------------------
  // Votes
  // ------------------------------------------------------------------

  /** A vote that can be counted: it fits the tally of its root, or there is a free slot for a new one.
      A vote for another ballot than the operator's last always fits a tally; one for the same ballot is
      counted twice until the first is taken back. */
  ghost predicate RoomForReVote(box: B.Box, v: nat, root: Digest, w: StakeWeights)
    requires v < |box.votes|
  {
    var t := B.FindTally(box.tallies, B.NewBallot(root), 0);
    if t == |box.tallies| then box.uniqueBallots < MAX_OPERATORS
    else box.votes[v].ballotIndex == t ==> AddFits(box.tallies[t].weights, w)
  }

  lemma {:induction false} RoomIsEnough(c: Params, w: World, i: E.OperatorIndex, v: nat, root: Digest)
    requires ParamsOk(c) && Inv(c, w) && w.box.Held() && VotesOk(c, w.operators, w.box.data)
    requires w.snapshot.Held() && w.snapshot.data.Finalized() && w.operators[i].Held()
    requires v < w.box.data.operatorsVoted && w.box.data.votes[v].operator == c.operators[i]
    ensures Capacity.HasRoom(w.box.data, B.NewBallot(root), w.operators[i].data.weights)
       <==> RoomForReVote(w.box.data, v, root, w.operators[i].data.weights)
  {
    var box := w.box.data;
    var t := B.FindTally(box.tallies, B.NewBallot(root), 0);
    KeyIsAt(c, i);
    assert VoteOk(c, w.operators, box.votes[v]);
    if t < |box.tallies| && box.votes[v].ballotIndex != t {
      forall m | m != Heads ensures Sum(Refinement.Cast(box.votes, MAX_OPERATORS, m)) <= U128_MAX {
        CastWithinSnapshot(c, w, m);
      }
      Capacity.OtherBallotHasRoom(box, v, t);
    }
  }

  /** The whole vote, for an operator who has voted. */
  lemma {:induction false} ReVoteSucceeds(c: Params, w: World, i: E.OperatorIndex, v: nat, root: Digest)
    requires ParamsOk(c) && Inv(c, w) && w.box.Held() && w.operators[i].Held()
    requires v < w.box.data.operatorsVoted && w.box.data.votes[v].operator == c.operators[i]
    requires w.snapshot.Held() && Consensus.WinnerOk(w.box.data, c.threshold, w.snapshot.data.weights.total)
    ensures var box, total, weights := w.box.data, w.snapshot.data.weights.total, w.operators[i].data.weights;
      var vote := Consensus.Vote(box, c.threshold, total, c.operators[i], B.NewBallot(root), weights, w.slot,
                                 c.validSlots);
      && (vote.Ok? <==>
           && !box.IsConsensusReached() && root != 0 && total > 0
           && Capacity.HasRoom(box, B.NewBallot(root), weights))
      && (vote.Ok? && vote.value.IsConsensusReached() ==> B.GetWinningTally(vote.value).Ok?)
  {
    var box, total, weights := w.box.data, w.snapshot.data.weights.total, w.operators[i].data.weights;
    var ballot := B.NewBallot(root);
    Capacity.ReVoteExactly(box, v, ballot, weights, w.slot, c.validSlots);
    if B.CastVote(box, c.operators[i], ballot, weights, w.slot, c.validSlots).Ok? {
      CastTouchesVotesOnly(box, c.operators[i], ballot, weights, w.slot, c.validSlots);
    }
    var vote := Consensus.Vote(box, c.threshold, total, c.operators[i], ballot, weights, w.slot, c.validSlots);
    if vote.Ok? {
      Consensus.VoteKeeps(box, c.threshold, total, c.operators[i], ballot, weights, w.slot, c.validSlots);
      Consensus.WinningTallyFound(vote.value, c.threshold, total);
    }
  }

  /** An operator who has voted, with its accounts at hand, is heard again exactly before consensus, for a
      root that is one, while there is stake to be a fraction of, and with room for its vote. */
  lemma {:induction false} ReVoteIsHeard(c: Params, w: World, i: E.OperatorIndex, v: nat, root: Digest)
    requires ParamsOk(c) && Inv(c, w)
    requires w.box.Live? && w.snapshot.Live? && w.snapshot.data.Finalized() && w.operators[i].Live?
    requires v < w.box.data.operatorsVoted && w.box.data.votes[v].operator == c.operators[i]
    ensures v < |w.box.data.votes|
    ensures DoCastVote(c, w, i, root).Ok? <==>
      && !HasConsensus(w) && root != 0 && w.snapshot.data.weights.total > 0
      && RoomForReVote(w.box.data, v, root, w.operators[i].data.weights)
  {
    BoxMeetsSnapshot(c, w);
    assert OperatorAccountOk(c, i, w.operators[i], w.state.operators[i], OperatorCount(w.snapshot),
                             VaultCount(w.snapshot));
    HeardVote(c, w, i, root);
    ReVoteSucceeds(c, w, i, v, root);
    RoomIsEnough(c, w, i, v, root);
  }

  // ------------------------------------------------------------------
  // The tie-break
  // ------------------------------------------------------------------

  ghost predicate BoxOfEpoch(c: Params, box: Account<B.Box>) {
    box.Held() ==> box.data.epoch == c.epoch
  }

  lemma {:induction false} VoteKeepsEpoch(c: Params, w: World, i: E.OperatorIndex, root: Digest)
    requires ParamsOk(c) && Inv(c, w) && BoxOfEpoch(c, w.box) && DoCastVote(c, w, i, root).Ok?
    ensures BoxOfEpoch(c, DoCastVote(c, w, i, root).value.box)
  {
    var box' := VoteInRun(c, w, i, root);
    var weights := w.operators[i].data.weights;
    CastTouchesVotesOnly(w.box.data, c.operators[i], B.NewBallot(root), weights, w.slot, c.validSlots);
    TallyTouchesWinnerOnly(
      B.CastVote(w.box.data, c.operators[i], B.NewBallot(root), weights, w.slot, c.validSlots).value, c.threshold,
      w.snapshot.data.weights.total, w.slot);
  }

  lemma {:induction false} StepKeepsEpoch(c: Params, w: World, e: Event)
    requires ParamsOk(c) && Inv(c, w) && BoxOfEpoch(c, w.box) && Instruction(c, w, e).Ok?
    ensures BoxOfEpoch(c, Instruction(c, w, e).value.box)
  {
    if e.CastVote? {
      VoteKeepsEpoch(c, w, e.operator, e.root);
    } else if e.SetTieBreaker? {
      var box' := TieBreakInRun(c, w, e.root);
    } else {
      OnlyVotesTouchVotes(c, w, e);
    }
  }

  /** The ballot box of an epoch is that epoch's. */
  lemma {:induction false} BoxIsOfEpoch(c: Params, slot: U64, events: seq<Event>)
    requires ParamsOk(c) && 0 < slot < E.NO_CONSENSUS
    ensures BoxOfEpoch(c, Run(c, Start(slot), events).box)
    decreases |events|
  {
    if events != [] {
      var before, e := events[..|events| - 1], events[|events| - 1];
      BoxIsOfEpoch(c, slot, before);
      StartInv(c, slot);
      RunKeeps(c, Start(slot), before);
      if Instruction(c, Run(c, Start(slot), before), e).Ok? {
        StepKeepsEpoch(c, Run(c, Start(slot), before), e);
      }
    }
  }

  /** A root that somebody's latest vote is for. */
  ghost predicate Chosen(votes: map<Key, Refinement.Choice>, root: Digest) {
    exists k :: k in votes && votes[k].root == root
  }

  lemma {:induction false} TieBreakInBox(box: B.Box, root: Digest, currentEpoch: U64, epochsBeforeStall: U64)
    requires BallotBoxProofs.Valid(box)
    ensures B.SetTieBreaker(box, root, currentEpoch, epochsBeforeStall).Ok? <==>
      && box.slotConsensus == U64_MAX && !box.winning.isValid
      && box.epoch + epochsBeforeStall <= U64_MAX && currentEpoch as int >= box.epoch + epochsBeforeStall
      && root != 0 && Chosen(Refinement.VoteMap(box), root)
  {
    Consensus.TieBreakerExactly(box, root, currentEpoch, epochsBeforeStall);
  }

  lemma {:induction false} TieBreakInWorld(c: Params, w: World, root: Digest)
    requires w.box.Live?
    ensures DoSetTieBreaker(c, w, root).Ok?
       <==> B.SetTieBreaker(w.box.data, root, c.epochOf(w.slot), c.epochsBeforeStall).Ok?
  {
  }

  /** The tie-break in a run: with the ballot box at hand it is granted exactly without consensus, once
      the epoch has stalled, and for a root that the latest accepted vote of some operator is for. */
  lemma {:induction false} TieBreakIsGranted(c: Params, slot: U64, events: seq<Event>, root: Digest)
    requires ParamsOk(c) && 0 < slot < E.NO_CONSENSUS && Run(c, Start(slot), events).box.Live?
    ensures var w, votes := Run(c, Start(slot), events), VotesCast(c, Start(slot), events);
      DoSetTieBreaker(c, w, root).Ok? <==>
        && !HasConsensus(w)
        && c.epoch + c.epochsBeforeStall <= U64_MAX && c.epochOf(w.slot) as int >= c.epoch + c.epochsBeforeStall
        && root != 0 && Chosen(votes, root)
  {
    BoxIsVotesCast(c, slot, events);
    BoxIsOfEpoch(c, slot, events);
    var w := Run(c, Start(slot), events);
    TieBreakInWorld(c, w, root);
    TieBreakInBox(w.box.data, root, c.epochOf(w.slot), c.epochsBeforeStall);
  }

  // ------------------------------------------------------------------
  // Consensus
  // ------------------------------------------------------------------

  /** Support comes from votes. */
  lemma {:induction false} SupportedIsChosen(votes: map<Key, Refinement.Choice>, root: Digest, m: Measure)
    requires Refinement.Support(votes, root, m) > 0
    ensures root in Refinement.ChosenRoots(votes)
    decreases |votes|
  {
    var k :| k in votes;
    Refinement.SupportSplit(votes, k, root, m);
    if votes[k].root != root {
      SupportedIsChosen(votes - {k}, root, m);
    }
  }

  /** A root with two thirds of the stake. */
  ghost predicate HoldsTwoThirds(votes: map<Key, Refinement.Choice>, root: Digest, total: nat) {
    3 * Refinement.Support(votes, root, Stake) >= 2 * total
  }

  ghost predicate SomeRootHolds(votes: map<Key, Refinement.Choice>, total: nat) {
    exists root :: HoldsTwoThirds(votes, root, total)
  }

  lemma {:induction false} TallyOfRoot(box: B.Box, root: Digest) returns (t: nat)
    requires BallotBoxProofs.Valid(box) && Refinement.Support(Refinement.VoteMap(box), root, Stake) > 0
    ensures t < |box.tallies| && box.tallies[t].ballot.isValid && box.tallies[t].ballot.root == root
    ensures box.tallies[t].weights.total == Refinement.Support(Refinement.VoteMap(box), root, Stake)
  {
    SupportedIsChosen(Refinement.VoteMap(box), root, Stake);
    Refinement.RootsAgree(box);
    t :| 0 <= t < |box.tallies| && box.tallies[t].ballot.isValid && box.tallies[t].ballot.root == root;
    Refinement.TalliesAgree(box, t, Stake);
    assert box.tallies[t].Amount(Stake) == box.tallies[t].weights.total;
  }

  /** No ballot holds two thirds while there is no winner, and the winner by votes does. */
  lemma {:induction false} WinnerByTwoThirds(box: B.Box, total: nat)
    requires BallotBoxProofs.Valid(box) && Consensus.WinnerOk(box, B.TWO_THIRDS, total) && total > 0
    ensures !box.IsConsensusReached() ==> forall root :: !HoldsTwoThirds(Refinement.VoteMap(box), root, total)
    ensures box.slotConsensus != B.NO_SLOT ==> HoldsTwoThirds(Refinement.VoteMap(box), box.winning.root, total)
  {
    var votes := Refinement.VoteMap(box);
    if !box.IsConsensusReached() {
      forall root ensures !HoldsTwoThirds(votes, root, total) {
        if HoldsTwoThirds(votes, root, total) {
          var t := TallyOfRoot(box, root);
          assert B.TWO_THIRDS.Met(box.tallies[t].weights.total, total);
        }
      }
    } else if box.slotConsensus != B.NO_SLOT {
      var t := Consensus.WinnerSlot(box);
      Refinement.TalliesAgree(box, t, Stake);
      assert box.tallies[t].Amount(Stake) == box.tallies[t].weights.total;
    }
  }

  lemma {:induction false} TieBreakInState(c: Params, w: World)
    requires Inv(c, w) && w.box.Held() && !w.state.wasTieBreakerSet
    ensures HasConsensus(w) <==> w.box.data.slotConsensus != B.NO_SLOT
    ensures HasConsensus(w) <==> w.box.data.IsConsensusReached()
  {
  }

  lemma {:induction false} ConsensusInWorld(c: Params, w: World, votes: map<Key, Refinement.Choice>)
    requires ParamsOk(c) && Inv(c, w) && Votes(w, votes) && c.threshold == B.TWO_THIRDS
    requires w.box.Held() && w.snapshot.Held() && w.snapshot.data.Finalized() && w.snapshot.data.weights.total > 0
    requires !w.state.wasTieBreakerSet
    ensures HasConsensus(w) <==> SomeRootHolds(votes, w.snapshot.data.weights.total)
    ensures HasConsensus(w) ==> HoldsTwoThirds(votes, w.box.data.winning.root, w.snapshot.data.weights.total)
  {
    BoxMeetsSnapshot(c, w);
    WinnerByTwoThirds(w.box.data, w.snapshot.data.weights.total);
    TieBreakInState(c, w);
  }

  /** What consensus is, over every run: with the fraction the program uses, and without a tie-break, the
      ballot box has a winner exactly when some root holds two thirds of the snapshot's stake in the
      latest accepted votes; and the winner is such a root. */
  lemma {:induction false} ConsensusIsTwoThirds(c: Params, slot: U64, events: seq<Event>)
    requires ParamsOk(c) && c.threshold == B.TWO_THIRDS && 0 < slot < E.NO_CONSENSUS
    requires var w := Run(c, Start(slot), events);
      && w.box.Held() && w.snapshot.Held() && w.snapshot.data.Finalized() && w.snapshot.data.weights.total > 0
      && !w.state.wasTieBreakerSet
    ensures var w, votes := Run(c, Start(slot), events), VotesCast(c, Start(slot), events);
      && (HasConsensus(w) <==> SomeRootHolds(votes, w.snapshot.data.weights.total))
      && (HasConsensus(w) ==> HoldsTwoThirds(votes, w.box.data.winning.root, w.snapshot.data.weights.total))
  {
    StartInv(c, slot);
    RunKeeps(c, Start(slot), events);
    BoxIsVotesCast(c, slot, events);
    ConsensusInWorld(c, Run(c, Start(slot), events), VotesCast(c, Start(slot), events));
  }
}
