/** The invariants through votes and the tie-break. */
module EpochRunVotes {
  import opened Common
  import opened StakeWeight
  import opened EpochRunSpec
  import opened EpochRunInvariants
  import B = BallotBoxSpec
  import BallotBoxProofs
  import Refinement = BallotBoxRefinement
  import Consensus
  import E = EpochStateSpec

  /** With the first vote the empty box meets the snapshot it will be tallied against. */
  lemma {:induction false} BoxMeetsSnapshot(c: Params, w: World)
    requires ParamsOk(c) && Inv(c, w) && w.box.Held() && w.snapshot.Held() && w.snapshot.data.Finalized()
    ensures Consensus.WinnerOk(w.box.data, c.threshold, w.snapshot.data.weights.total)
    ensures VotesOk(c, w.operators, w.box.data)
  {
    if w.box.data.operatorsVoted == 0 {
      Consensus.NewBoxWinnerOk(c.epoch, c.threshold, w.snapshot.data.weights.total);
    }
  }

  /** One vote replaced or appended, with the weights of the voter's snapshot. */
  lemma {:induction false} RecordedVoteOk(c: Params, operators: OperatorAccounts, box: B.Box, box': B.Box,
                                          i: E.OperatorIndex, slot: U64, t: U16)
    requires ParamsOk(c) && VotesOk(c, operators, box) && operators[i].Held()
    requires BallotBoxProofs.CastRecorded(box, box', c.operators[i], operators[i].data.weights, slot, t)
    ensures VotesOk(c, operators, box') && box'.operatorsVoted > 0
  {
    KeyIsAt(c, i);
    forall v | 0 <= v < box'.operatorsVoted && v < |box'.votes| ensures VoteOk(c, operators, box'.votes[v]) {
      if v != BallotBoxProofs.CastSlot(box, c.operators[i]) {
        assert box'.votes[v] == box.votes[v] && VoteOk(c, operators, box.votes[v]);
      }
    }
  }

  /** The vote instruction on the ballot box, in a run. */
  lemma {:induction false} VoteInRun(c: Params, w: World, i: E.OperatorIndex, root: Digest) returns (box': B.Box)
    requires ParamsOk(c) && Inv(c, w) && DoCastVote(c, w, i, root).Ok?
    ensures w.box.Live? && w.snapshot.Live? && w.operators[i].Live? && w.snapshot.data.Finalized()
    ensures Consensus.WinnerOk(w.box.data, c.threshold, w.snapshot.data.weights.total)
    ensures Consensus.Vote(w.box.data, c.threshold, w.snapshot.data.weights.total, c.operators[i], B.NewBallot(root),
                           w.operators[i].data.weights, w.slot, c.validSlots) == Ok(box')
    ensures DoCastVote(c, w, i, root).value
         == w.(box := Live(box'), state := E.CastVote(w.state, box'.operatorsVoted, box'.IsConsensusReached(), w.slot))
  {
    assert OperatorAccountOk(c, i, w.operators[i], w.state.operators[i], OperatorCount(w.snapshot),
                             VaultCount(w.snapshot));
    BoxMeetsSnapshot(c, w);
    box' := DoCastVote(c, w, i, root).value.box.data;
  }

  /** What it does to the box. */
  lemma {:induction false} VotedBoxOk(c: Params, w: World, i: E.OperatorIndex, root: Digest)
    requires ParamsOk(c) && Inv(c, w) && DoCastVote(c, w, i, root).Ok?
    ensures var w' := DoCastVote(c, w, i, root).value;
      w'.box.Live? && BoxOk(c, w'.box, w.snapshot, w.operators, w'.state.voting)
  {
    var box := w.box.data;
    var box' := VoteInRun(c, w, i, root);
    var weights := w.operators[i].data.weights;
    BoxMeetsSnapshot(c, w);
    Consensus.VoteKeeps(box, c.threshold, w.snapshot.data.weights.total, c.operators[i], B.NewBallot(root), weights,
                        w.slot, c.validSlots);
    var t := BallotBoxProofs.CastVoteKeeps(box, c.operators[i], B.NewBallot(root), weights, w.slot, c.validSlots);
    var cast := B.CastVote(box, c.operators[i], B.NewBallot(root), weights, w.slot, c.validSlots).value;
    RecordedVoteOk(c, w.operators, box, cast, i, w.slot, t);
    TallyTouchesWinnerOnly(cast, c.threshold, w.snapshot.data.weights.total, w.slot);
  }

  lemma {:induction false} TallyTouchesWinnerOnly(box: B.Box, th: B.Threshold, total: U128, slot: U64)
    requires B.TallyVotes(box, th, total, slot).Ok?
    ensures var box' := B.TallyVotes(box, th, total, slot).value;
      && box' == box.(slotConsensus := box'.slotConsensus, winning := box'.winning)
      && (box.IsConsensusReached() ==> box' == box)
      && (!box.IsConsensusReached() ==> box' == box || box'.slotConsensus == slot)
  {
  }

  lemma {:induction false} CastTouchesVotesOnly(box: B.Box, operator: Key, ballot: B.Ballot, weights: StakeWeights,
                                                slot: U64, validSlots: U64)
    requires B.CastVote(box, operator, ballot, weights, slot, validSlots).Ok?
    ensures var box' := B.CastVote(box, operator, ballot, weights, slot, validSlots).value;
      && box'.slotConsensus == box.slotConsensus && box'.winning == box.winning && box'.epoch == box.epoch
    ensures B.IsVotingValid(box, slot, validSlots) == Ok(true) && !box.TieBreakerSet()
  {
  }

  lemma {:induction false} VotedConsensusOk(c: Params, w: World, i: E.OperatorIndex, root: Digest)
    requires ParamsOk(c) && Inv(c, w) && DoCastVote(c, w, i, root).Ok?
    ensures var w' := DoCastVote(c, w, i, root).value;
      && ConsensusOk(w'.box, w'.state.slotConsensus, w'.state.wasTieBreakerSet, w'.slot)
      && (w.state.IsConsensusReached() ==> w'.state.slotConsensus == w.state.slotConsensus)
      && !VotingOver(c, w.box.data, w.slot)
  {
    var box := w.box.data;
    var box' := VoteInRun(c, w, i, root);
    var weights := w.operators[i].data.weights;
    CastTouchesVotesOnly(box, c.operators[i], B.NewBallot(root), weights, w.slot, c.validSlots);
    TallyTouchesWinnerOnly(B.CastVote(box, c.operators[i], B.NewBallot(root), weights, w.slot, c.validSlots).value,
                           c.threshold, w.snapshot.data.weights.total, w.slot);
    Consensus.VoteKeeps(box, c.threshold, w.snapshot.data.weights.total, c.operators[i], B.NewBallot(root), weights,
                        w.slot, c.validSlots);
  }

  lemma {:induction false} CastVoteKeeps(c: Params, w: World, i: E.OperatorIndex, root: Digest)
    requires ParamsOk(c) && Inv(c, w) && DoCastVote(c, w, i, root).Ok?
    ensures Inv(c, DoCastVote(c, w, i, root).value)
  {
    VotedBoxOk(c, w, i, root);
    VotedConsensusOk(c, w, i, root);
    var box' := VoteInRun(c, w, i, root);
  }

  /** The tie-break needs a ballot with votes, and there is no consensus yet. */
  lemma {:induction false} TieBreakInRun(c: Params, w: World, root: Digest) returns (box': B.Box)
    requires ParamsOk(c) && Inv(c, w) && DoSetTieBreaker(c, w, root).Ok?
    ensures w.box.Live? && w.box.data.operatorsVoted > 0 && !w.box.data.IsConsensusReached()
    ensures B.SetTieBreaker(w.box.data, root, c.epochOf(w.slot), c.epochsBeforeStall) == Ok(box')
    ensures box' == w.box.data.(winning := B.NewBallot(root)) && box'.TieBreakerSet()
    ensures DoSetTieBreaker(c, w, root).value == w.(box := Live(box'), state := E.SetTieBreaker(w.state, true, w.slot))
  {
    box' := B.SetTieBreaker(w.box.data, root, c.epochOf(w.slot), c.epochsBeforeStall).value;
    var v := Refinement.BackerOf(w.box.data, B.FindTally(w.box.data.tallies, B.NewBallot(root), 0));
  }

  lemma {:induction false} SetTieBreakerKeeps(c: Params, w: World, root: Digest)
    requires ParamsOk(c) && Inv(c, w) && DoSetTieBreaker(c, w, root).Ok?
    ensures Inv(c, DoSetTieBreaker(c, w, root).value)
  {
    var box' := TieBreakInRun(c, w, root);
    Consensus.TieBreakerKeeps(w.box.data, c.threshold, w.snapshot.data.weights.total, root, c.epochOf(w.slot),
                              c.epochsBeforeStall);
    assert forall v :: 0 <= v < box'.operatorsVoted && v < |box'.votes| ==> VoteOk(c, w.operators, box'.votes[v]) by {
      assert VotesOk(c, w.operators, w.box.data);
    }
  }
}
