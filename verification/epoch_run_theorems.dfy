/** What every run of an epoch guarantees. */
module EpochRunTheorems {
  import opened Common
  import opened Sums
  import opened StakeWeight
  import opened FeesSpec
  import opened InstructionsSpec
  import opened EpochRunSpec
  import opened EpochRunInvariants
  import opened EpochRunSnapshots
  import opened EpochRunVotes
  import opened EpochRunRewards
  import opened EpochRunClosing
  import opened EpochRunProgress
  import opened EpochRunCounters
  import W = WeightTableSpec
  import WeightTableProofs
  import S = EpochSnapshotSpec
  import SnapshotProofs = EpochSnapshotProofs
  import B = BallotBoxSpec
  import BallotBoxProofs
  import Refinement = BallotBoxRefinement
  import Consensus
  import Base = BaseRewardRouterSpec
  import BaseProofs = BaseRewardRouterProofs
  import BaseTheorems = BaseRewardRouterTheorems
  import Ncn = NcnRewardRouterSpec
  import NcnProofs = NcnRewardRouterProofs
  import E = EpochStateSpec

  // ------------------------------------------------------------------
  // The snapshot chain
  // ------------------------------------------------------------------

  /** Per operator with a final snapshot, what its registered delegations add up to. */
  function FinalDelegated(operators: seq<Account<S.OperatorSnapshot>>, m: Measure): (r: seq<nat>)
    ensures |r| == |operators|
  {
    seq(|operators|, i requires 0 <= i < |operators| =>
      if IsFinal(operators[i]) then Sum(SnapshotProofs.Delegated(operators[i].data.delegations, m)) else 0)
  }

  /** From the epoch's weights down to single delegations; and once the epoch snapshot is final, no
      operator below the count is missing. */
  lemma {:induction false} SnapshotChain(c: Params, w: World, m: Measure)
    requires ParamsOk(c) && Reachable(c, w) && w.snapshot.Held() && m != Heads
    ensures w.snapshot.data.weights.Amount(m) == Sum(FinalDelegated(w.operators, m))
    ensures w.table.Held() && w.table.data.Finalized()
    ensures w.snapshot.data.Finalized() <==>
      w.snapshot.data.operatorCount <= MAX_OPERATORS
      && forall i: E.OperatorIndex :: i < w.snapshot.data.operatorCount ==> IsFinal(w.operators[i])
  {
    ReachableInv(c, w);
    FinalMeansAllFinal(c, w);
    forall i | 0 <= i < MAX_OPERATORS ensures FinalDelegated(w.operators, m)[i] == FinalWeights(w.operators, m)[i] {
      assert OperatorAccountOk(c, i, w.operators[i], w.state.operators[i], OperatorCount(w.snapshot),
                               VaultCount(w.snapshot));
    }
    assert FinalDelegated(w.operators, m) == FinalWeights(w.operators, m);
    if w.snapshot.data.operatorCount <= MAX_OPERATORS
       && forall i: E.OperatorIndex :: i < w.snapshot.data.operatorCount ==> IsFinal(w.operators[i]) {
      AllFinalFillsCount(w.operators, w.snapshot.data.operatorCount);
    }
  }

  lemma {:induction false} AllFinalFillsCount(operators: OperatorAccounts, n: nat)
    requires n <= MAX_OPERATORS && forall i: E.OperatorIndex :: i < n ==> IsFinal(operators[i])
    ensures Sum(FinalFlags(operators)) >= n
  {
    var flags := FinalFlags(operators);
    SumOfFlags(flags[..n]);
    SumOfPrefix(flags, n);
  }

  // ------------------------------------------------------------------
  // The weight table
  // ------------------------------------------------------------------

  /** Some weight for the default key was accepted on the way. */
  predicate DefaultMintAccepted(c: Params, start: World, events: seq<Event>)
    decreases |events|
  {
    && events != []
    && var before, e := events[..|events| - 1], events[|events| - 1];
    || DefaultMintAccepted(c, start, before)
    || (e.SetWeight? && e.mint == DEFAULT_KEY && Instruction(c, Run(c, start, before), e).Ok?)
  }

  /** What an event other than a weight can do to the weight table. */
  ghost predicate TableOpensOrCloses(w: World, w': World) {
    || w'.table == w.table
    || (w.table.Absent? && w'.table.Allocated?)
    || (w.table.Allocated? && w'.table.Live? && WeightTableProofs.TableOk(w'.table.data))
    || (w.table.Live? && w'.table == Closed(w.table.data))
  }

  lemma {:induction false} ReallocOpensTable(w: World, vaultCount: U64, vaults: W.VaultRegistry, mints: W.MintTable)
    requires DoReallocWeightTable(w, vaultCount, vaults, mints).Ok?
    ensures TableOpensOrCloses(w, DoReallocWeightTable(w, vaultCount, vaults, mints).value)
  {
    WeightTableProofs.InitializeOk(vaultCount, vaults, mints);
  }

  lemma {:induction false} SnapshotEventsSpareTable(c: Params, w: World, e: Event)
    requires BuildsSnapshots(e) && !e.SetWeight? && Instruction(c, w, e).Ok?
    ensures TableOpensOrCloses(w, Instruction(c, w, e).value)
  {
    if e.ReallocWeightTable? {
      ReallocOpensTable(w, e.vaultCount, e.vaults, e.mints);
    }
  }

  lemma {:induction false} OtherEventsSpareTable(c: Params, w: World, e: Event)
    requires !BuildsSnapshots(e) && Instruction(c, w, e).Ok?
    ensures TableOpensOrCloses(w, Instruction(c, w, e).value)
  {
  }

  /** Weights are on listed mints only as long as no default key was accepted. */
  ghost predicate TableHistory(w: World, accepted: bool) {
    if w.table.Held() then WeightTableProofs.TableOk(w.table.data) <==> !accepted else !accepted
  }

  lemma {:induction false} WeightStep(c: Params, w: World, mint: Key, weight: U128, accepted: bool)
    requires Inv(c, w) && TableHistory(w, accepted) && DoSetWeight(w, mint, weight).Ok?
    ensures TableHistory(DoSetWeight(w, mint, weight).value, accepted || mint == DEFAULT_KEY)
  {
    var t := w.table.data;
    var s := WeightTableProofs.Setting(mint, weight, w.slot);
    var t' := WeightTableProofs.Apply(t, s);
    assert DoSetWeight(w, mint, weight).value.table == Live(t');
    WeightTableProofs.ApplyCounts(t, s);
    WeightTableProofs.TaintedExactly(t);
    WeightTableProofs.TaintedExactly(t');
    if WeightTableProofs.TableOk(t) {
      WeightTableProofs.DefaultMintExactly(t, mint, weight, w.slot);
    } else {
      WeightTableProofs.ApplyKeepsTaint(t, s);
    }
  }

  lemma {:induction false} TableStep(c: Params, w: World, e: Event, accepted: bool)
    requires Inv(c, w) && TableHistory(w, accepted) && Instruction(c, w, e).Ok?
    ensures TableHistory(Instruction(c, w, e).value, accepted || (e.SetWeight? && e.mint == DEFAULT_KEY))
  {
    if e.SetWeight? {
      WeightStep(c, w, e.mint, e.weight, accepted);
    } else if BuildsSnapshots(e) {
      SnapshotEventsSpareTable(c, w, e);
    } else {
      OtherEventsSpareTable(c, w, e);
    }
  }

  lemma {:induction false} TableFollowsHistory(c: Params, slot: U64, events: seq<Event>)
    requires ParamsOk(c) && 0 < slot < E.NO_CONSENSUS
    ensures TableHistory(Run(c, Start(slot), events), DefaultMintAccepted(c, Start(slot), events))
    decreases |events|
  {
    if events != [] {
      var before, e := events[..|events| - 1], events[|events| - 1];
      TableFollowsHistory(c, slot, before);
      StartInv(c, slot);
      RunKeeps(c, Start(slot), before);
      var w := Run(c, Start(slot), before);
      if Instruction(c, w, e).Ok? {
        TableStep(c, w, e, DefaultMintAccepted(c, Start(slot), before));
      }
    }
  }

  /** When a weight table of a run means what it says: without a weight for the default key it is final
      exactly when every listed mint has a weight; with one, it never has all weights, final or not. */
  lemma {:induction false} WeightTableIsHonestExactly(c: Params, slot: U64, events: seq<Event>)
    requires ParamsOk(c) && 0 < slot < E.NO_CONSENSUS && Run(c, Start(slot), events).table.Held()
    ensures var t := Run(c, Start(slot), events).table.data;
      if DefaultMintAccepted(c, Start(slot), events)
      then !WeightTableProofs.AllSet(t)
      else t.Finalized() <==> WeightTableProofs.AllSet(t)
  {
    StartInv(c, slot);
    RunKeeps(c, Start(slot), events);
    TableFollowsHistory(c, slot, events);
    var t := Run(c, Start(slot), events).table.data;
    if DefaultMintAccepted(c, Start(slot), events) {
      WeightTableProofs.TaintedExactly(t);
      WeightTableProofs.TaintedIsNeverComplete(t);
    } else {
      WeightTableProofs.FinalizedExactly(t);
    }
  }

  // ------------------------------------------------------------------
  // Votes
  // ------------------------------------------------------------------

  /** Which operator each recorded vote belongs to. */
  function Voters(c: Params, box: B.Box): (r: seq<nat>)
    requires box.operatorsVoted <= |box.votes|
    ensures |r| == box.operatorsVoted
  {
    seq(box.operatorsVoted as nat, v requires 0 <= v < box.operatorsVoted =>
      FindKey(c.operators, box.votes[v].operator, 0))
  }

  lemma {:induction false} VotersAreDistinct(c: Params, w: World)
    requires ParamsOk(c) && Inv(c, w) && w.box.Held() && VotesOk(c, w.operators, w.box.data)
    ensures forall v, u :: 0 <= v < u < w.box.data.operatorsVoted ==>
      Voters(c, w.box.data)[v] != Voters(c, w.box.data)[u]
  {
    var box := w.box.data;
    forall v, u | 0 <= v < u < box.operatorsVoted ensures Voters(c, box)[v] != Voters(c, box)[u] {
      assert VoteOk(c, w.operators, box.votes[v]) && VoteOk(c, w.operators, box.votes[u]);
      assert box.votes[v].operator != box.votes[u].operator;
    }
  }

  /** Only recorded votes count. */
  lemma {:induction false} CastIsRecorded(box: B.Box, m: Measure)
    requires BallotBoxProofs.Valid(box)
    ensures Sum(Refinement.Cast(box.votes, MAX_OPERATORS, m))
         == Sum(Refinement.Cast(box.votes, MAX_OPERATORS, m)[..box.operatorsVoted])
  {
    var cast, n := Refinement.Cast(box.votes, MAX_OPERATORS, m), box.operatorsVoted;
    assert cast == cast[..n] + cast[n..];
    SumConcat(cast[..n], cast[n..]);
    SumZero(cast[n..]);
  }

  /** A vote casts no more than its voter's snapshot contributed to the epoch's. */
  lemma {:induction false} VoteIsCovered(c: Params, w: World, v: nat, m: Measure)
    requires ParamsOk(c) && Inv(c, w) && w.box.Held() && VotesOk(c, w.operators, w.box.data)
    requires w.snapshot.Held() && w.snapshot.data.Finalized() && m != Heads && v < w.box.data.operatorsVoted
    ensures Voters(c, w.box.data)[v] < MAX_OPERATORS
    ensures Refinement.Cast(w.box.data.votes, MAX_OPERATORS, m)[v]
         <= FinalWeights(w.operators, m)[Voters(c, w.box.data)[v]]
  {
    assert VoteOk(c, w.operators, w.box.data.votes[v]);
    FinalMeansAllFinal(c, w);
  }

  /** What is cast never exceeds what was snapshotted, in total or in any fee group. */
  lemma {:induction false} CastWithinSnapshot(c: Params, w: World, m: Measure)
    requires ParamsOk(c) && Inv(c, w) && w.box.Held() && w.snapshot.Held() && w.snapshot.data.Finalized() && m != Heads
    ensures Sum(Refinement.Cast(w.box.data.votes, MAX_OPERATORS, m)) <= w.snapshot.data.weights.Amount(m)
  {
    var box := w.box.data;
    var cast := Refinement.Cast(box.votes, MAX_OPERATORS, m)[..box.operatorsVoted];
    BoxMeetsSnapshot(c, w);
    VotersAreDistinct(c, w);
    CastIsRecorded(box, m);
    forall v | 0 <= v < |cast|
      ensures Voters(c, box)[v] < MAX_OPERATORS && cast[v] <= FinalWeights(w.operators, m)[Voters(c, box)[v]]
    {
      VoteIsCovered(c, w, v, m);
    }
    SumInjection(cast, FinalWeights(w.operators, m), Voters(c, box));
  }

  /** Safety of the winner: in every state with a winner by votes, the winner holds at least the
      consensus fraction of the snapshot, all other ballots together at most the rest, and none of
      them could have won. */
  lemma {:induction false} WinnerIsSafe(c: Params, w: World)
    requires ParamsOk(c) && Reachable(c, w) && w.box.Held() && w.box.data.slotConsensus != B.NO_SLOT
    ensures w.snapshot.Held() && w.snapshot.data.Finalized() && Consensus.WinnerSlot(w.box.data) < MAX_OPERATORS
    ensures var total := w.snapshot.data.weights.total;
      var box, win := w.box.data, Consensus.WinnerSlot(w.box.data);
      && B.GetWinningTally(box) == Ok(box.tallies[win])
      && c.threshold.Met(box.tallies[win].weights.total, total)
      && box.tallies[win].weights.total <= total
      && Consensus.AllBut(box, win) <= total - box.tallies[win].weights.total
      && (total > 0 ==>
           forall t :: 0 <= t < |box.tallies| && t != win ==> !c.threshold.Met(box.tallies[t].weights.total, total))
  {
    ReachableInv(c, w);
    CastWithinSnapshot(c, w, Stake);
    Consensus.WinningTallyFound(w.box.data, c.threshold, w.snapshot.data.weights.total);
    OthersTakeTheRest(w.box.data, c.threshold, w.snapshot.data.weights.total);
    if w.snapshot.data.weights.total > 0 {
      Consensus.OthersStayBelow(w.box.data, c.threshold, w.snapshot.data.weights.total);
    }
  }

  lemma {:induction false} OthersTakeTheRest(box: B.Box, th: B.Threshold, total: nat)
    requires BallotBoxProofs.Valid(box) && Consensus.WinnerOk(box, th, total) && box.IsConsensusReached()
    requires Sum(Refinement.Cast(box.votes, MAX_OPERATORS, Stake)) <= total
    ensures box.tallies[Consensus.WinnerSlot(box)].weights.total <= total
    ensures Consensus.AllBut(box, Consensus.WinnerSlot(box))
         <= total - box.tallies[Consensus.WinnerSlot(box)].weights.total
  {
    Refinement.TalliedIsCast(box, Stake);
    SumUpdate(Refinement.Tallied(box.tallies, Stake), Consensus.WinnerSlot(box), 0);
  }

  lemma {:induction false} WinnerIsFound(c: Params, w: World)
    requires ParamsOk(c) && Inv(c, w) && w.box.Held() && w.box.data.IsConsensusReached()
    ensures w.snapshot.Held() && w.snapshot.data.Finalized() && w.state.slotConsensus != E.NO_CONSENSUS
    ensures B.GetWinningTally(w.box.data).Ok?
    ensures B.GetWinningTally(w.box.data).value.weights.total == WinnerWeight(w.box.data)
  {
    Consensus.WinningTallyFound(w.box.data, c.threshold, w.snapshot.data.weights.total);
  }

  /** And it stays: over any continuation the winning ballot, its consensus slot and the slot the epoch
      state reports never change, its weight never drops, and its tally is always found. */
  lemma {:induction false} WinnerNeverChanges(c: Params, w: World, events: seq<Event>)
    requires ParamsOk(c) && Reachable(c, w) && w.box.Held() && w.box.data.IsConsensusReached()
    ensures var w' := Run(c, w, events);
      && w'.box.Held() && KeepsWinner(w.box.data, w'.box.data)
      && w'.state.slotConsensus == w.state.slotConsensus != E.NO_CONSENSUS
      && B.GetWinningTally(w'.box.data).Ok?
      && B.GetWinningTally(w'.box.data).value.weights.total == WinnerWeight(w'.box.data)
      && w.snapshot.Held() && w'.snapshot.Held() && w'.snapshot.data == w.snapshot.data
  {
    ReachableInv(c, w);
    RunKeeps(c, w, events);
    RunLater(c, w, events);
    WinnerIsFound(c, w);
    WinnerIsFound(c, Run(c, w, events));
  }

  /** Consensus as the epoch state sees it is consensus as the ballot box has it, and nobody gets there
      without a final weight table and a final snapshot. */
  lemma {:induction false} ConsensusAgrees(c: Params, w: World)
    requires ParamsOk(c) && Reachable(c, w)
    ensures w.state.IsConsensusReached() <==> w.box.Held() && w.box.data.IsConsensusReached()
    ensures w.state.wasTieBreakerSet <==> w.box.Held() && w.box.data.TieBreakerSet()
    ensures w.box.Held() && w.box.data.slotConsensus != B.NO_SLOT ==> w.state.slotConsensus == w.box.data.slotConsensus
    ensures w.state.IsConsensusReached() ==>
      w.table.Held() && w.table.data.Finalized() && w.snapshot.Held() && w.snapshot.data.Finalized()
  {
    ReachableInv(c, w);
  }

  /** The two clocks. Where the winner was voted in, votes are accepted up to and including the slot
      from which the epoch state would let routing start: at exactly one slot both are true. Where it
      was set by the tie-break, votes end at once, and the epoch state still waits. */
  lemma {:induction false} VotingMeetsRouting(c: Params, w: World)
    requires ParamsOk(c) && Inv(c, w) && w.state.IsConsensusReached() && w.state.slotConsensus + c.validSlots <= U64_MAX
    ensures w.box.Held()
    ensures var voting := B.IsVotingValid(w.box.data, w.slot, c.validSlots);
      var routing := E.CanStartRouting(w.state, c.validSlots, w.slot);
      && voting.Ok? && routing.Ok?
      && (w.box.data.TieBreakerSet() ==> voting == Ok(false))
      && (!w.box.data.TieBreakerSet() ==>
           && (voting.value || routing.value)
           && (voting.value && routing.value <==> w.slot == w.state.slotConsensus + c.validSlots))
  {
  }

  /** The plain map of votes that a run stands for: each successful vote overwrites its operator's. */
  ghost function VotesCast(c: Params, start: World, events: seq<Event>): map<Key, Refinement.Choice>
    decreases |events|
  {
    if events == [] then map[]
    else
      var before, e := events[..|events| - 1], events[|events| - 1];
      var w, votes := Run(c, start, before), VotesCast(c, start, before);
      if e.CastVote? && Instruction(c, w, e).Ok? && w.operators[e.operator].Held()
      then votes[c.operators[e.operator] := Refinement.Choice(e.root, w.operators[e.operator].data.weights)]
      else votes
  }

  /** What an event other than a vote can do to the ballot box. */
  ghost predicate BoxOpensOrCloses(c: Params, w: World, w': World) {
    || w'.box == w.box
    || (w.box.Absent? && w'.box.Allocated?)
    || (w.box.Allocated? && w'.box == Live(B.NewBox(c.epoch)))
    || (w.box.Live? && w'.box == Closed(w.box.data))
  }

  lemma {:induction false} SnapshotEventsSpareVotes(c: Params, w: World, e: Event)
    requires BuildsSnapshots(e) && Instruction(c, w, e).Ok?
    ensures BoxOpensOrCloses(c, w, Instruction(c, w, e).value)
  {
  }

  lemma {:induction false} OpeningSparesVotes(c: Params, w: World, e: Event)
    requires VotesOrOpens(e) && !e.CastVote? && !e.SetTieBreaker? && Instruction(c, w, e).Ok?
    ensures BoxOpensOrCloses(c, w, Instruction(c, w, e).value)
  {
  }

  lemma {:induction false} RewardsSpareVotes(c: Params, w: World, e: Event)
    requires MovesRewards(e) && Instruction(c, w, e).Ok?
    ensures BoxOpensOrCloses(c, w, Instruction(c, w, e).value)
  {
  }

  lemma {:induction false} ClosingSparesVotes(c: Params, w: World, e: Event)
    requires Closes(e) && Instruction(c, w, e).Ok?
    ensures BoxOpensOrCloses(c, w, Instruction(c, w, e).value)
  {
  }

  lemma {:induction false} OnlyVotesTouchVotes(c: Params, w: World, e: Event)
    requires !e.CastVote? && !e.SetTieBreaker? && Instruction(c, w, e).Ok?
    ensures BoxOpensOrCloses(c, w, Instruction(c, w, e).value)
  {
    if BuildsSnapshots(e) {
      SnapshotEventsSpareVotes(c, w, e);
    } else if VotesOrOpens(e) {
      OpeningSparesVotes(c, w, e);
    } else if MovesRewards(e) {
      RewardsSpareVotes(c, w, e);
    } else {
      ClosingSparesVotes(c, w, e);
    }
  }

  lemma {:induction false} NewBoxHasNoVotes(epoch: U64)
    ensures BallotBoxProofs.Valid(B.NewBox(epoch)) && Refinement.VoteMap(B.NewBox(epoch)) == map[]
  {
    BallotBoxProofs.NewBoxIsValid(epoch);
  }

  /** What the votes of a world are, as a map. */
  ghost predicate Votes(w: World, votes: map<Key, Refinement.Choice>) {
    if w.box.Held() then BallotBoxProofs.Valid(w.box.data) && Refinement.VoteMap(w.box.data) == votes
    else votes == map[]
  }

  lemma {:induction false} OpeningKeepsVotes(c: Params, w: World, w': World, votes: map<Key, Refinement.Choice>)
    requires Votes(w, votes) && BoxOpensOrCloses(c, w, w')
    ensures Votes(w', votes)
  {
    NewBoxHasNoVotes(c.epoch);
  }

  lemma {:induction false} TieBreakKeepsVotes(c: Params, w: World, root: Digest, votes: map<Key, Refinement.Choice>)
    requires ParamsOk(c) && Inv(c, w) && Votes(w, votes) && DoSetTieBreaker(c, w, root).Ok?
    ensures Votes(DoSetTieBreaker(c, w, root).value, votes)
  {
    var box' := TieBreakInRun(c, w, root);
    Consensus.TieBreakerKeeps(w.box.data, c.threshold, w.snapshot.data.weights.total, root, c.epochOf(w.slot),
                              c.epochsBeforeStall);
  }

  lemma {:induction false} StepVotes(c: Params, w: World, e: Event, votes: map<Key, Refinement.Choice>)
    requires ParamsOk(c) && Inv(c, w) && Votes(w, votes) && !e.CastVote?
    ensures Votes(Step(c, w, e), votes)
  {
    if Instruction(c, w, e).Ok? {
      if e.SetTieBreaker? {
        TieBreakKeepsVotes(c, w, e.root, votes);
      } else {
        OnlyVotesTouchVotes(c, w, e);
        OpeningKeepsVotes(c, w, Instruction(c, w, e).value, votes);
      }
    }
  }

  lemma {:induction false} CastVotes(c: Params, w: World, e: Event, votes: map<Key, Refinement.Choice>)
    requires ParamsOk(c) && Inv(c, w) && Votes(w, votes) && e.CastVote? && Instruction(c, w, e).Ok?
    ensures w.operators[e.operator].Held()
    ensures var choice := Refinement.Choice(e.root, w.operators[e.operator].data.weights);
      Votes(Step(c, w, e), votes[c.operators[e.operator] := choice])
  {
    var box' := VoteInRun(c, w, e.operator, e.root);
    Consensus.VoteKeeps(w.box.data, c.threshold, w.snapshot.data.weights.total, c.operators[e.operator],
                        B.NewBallot(e.root),
                        w.operators[e.operator].data.weights, w.slot, c.validSlots);
  }

  /** Refinement over whole runs: at every point the ballot box, whatever was re-voted, wiped or
      tie-broken, stands for exactly the map of the votes that were accepted. */
  lemma {:induction false} BoxIsVotesCast(c: Params, slot: U64, events: seq<Event>)
    requires ParamsOk(c) && 0 < slot < E.NO_CONSENSUS
    ensures Votes(Run(c, Start(slot), events), VotesCast(c, Start(slot), events))
    decreases |events|
  {
    if events != [] {
      var before, e := events[..|events| - 1], events[|events| - 1];
      var w := Run(c, Start(slot), before);
      BoxIsVotesCast(c, slot, before);
      StartInv(c, slot);
      RunKeeps(c, Start(slot), before);
      if e.CastVote? {
        if Instruction(c, w, e).Ok? {
          CastVotes(c, w, e, VotesCast(c, Start(slot), before));
        }
      } else {
        StepVotes(c, w, e, VotesCast(c, Start(slot), before));
      }
    }
  }

  /** So every live tally is what the accepted votes for its root add up to, under every measure, and
      the counters count them. */
  lemma {:induction false} TalliesAreVotesCast(c: Params, slot: U64, events: seq<Event>, t: nat, m: Measure)
    requires ParamsOk(c) && 0 < slot < E.NO_CONSENSUS
    requires var w := Run(c, Start(slot), events);
      w.box.Held() && t < |w.box.data.tallies| && w.box.data.tallies[t].ballot.isValid
    ensures var box, votes := Run(c, Start(slot), events).box.data, VotesCast(c, Start(slot), events);
      && box.tallies[t].Amount(m) == Refinement.Support(votes, box.tallies[t].ballot.root, m)
      && box.operatorsVoted == |votes| && box.uniqueBallots == |Refinement.ChosenRoots(votes)|
  {
    BoxIsVotesCast(c, slot, events);
    var box := Run(c, Start(slot), events).box.data;
    Refinement.TalliesAgree(box, t, m);
    Refinement.CountersAgree(box);
  }

  // ------------------------------------------------------------------
  // A vote is never refused for want of room
  // ------------------------------------------------------------------

  ghost predicate HasVoted(box: B.Box, operator: Key) {
    exists v :: 0 <= v < |box.votes| && box.votes[v].operator == operator
  }

  lemma {:induction false} Pigeonhole(f: seq<nat>, n: nat)
    requires forall v :: 0 <= v < |f| ==> f[v] < n
    requires forall v, u :: 0 <= v < u < |f| ==> f[v] != f[u]
    ensures |f| <= n
  {
    SumOfFlags(Filled<nat>(|f|, 1));
    SumOfFlags(Filled<nat>(n, 1));
    SumInjection(Filled<nat>(|f|, 1), Filled<nat>(n, 1), f);
  }

  /** The operators who voted, and one more who did not, are all different. */
  lemma {:induction false} OneMoreVoter(c: Params, w: World, i: E.OperatorIndex)
    requires ParamsOk(c) && Inv(c, w) && w.box.Held() && VotesOk(c, w.operators, w.box.data)
    requires !HasVoted(w.box.data, c.operators[i])
    ensures w.box.data.operatorsVoted < MAX_OPERATORS
    ensures var voters := Voters(c, w.box.data) + [i as nat];
      && (forall v :: 0 <= v < |voters| ==> voters[v] < MAX_OPERATORS)
      && (forall v, u :: 0 <= v < u < |voters| ==> voters[v] != voters[u])
  {
    var box := w.box.data;
    var voters := Voters(c, box) + [i as nat];
    VotersAreDistinct(c, w);
    forall v | 0 <= v < box.operatorsVoted ensures voters[v] < MAX_OPERATORS && voters[v] != i {
      assert VoteOk(c, w.operators, box.votes[v]);
    }
    Pigeonhole(voters, MAX_OPERATORS);
  }

  /** There is weight left in the snapshot for an operator who has not voted. */
  lemma {:induction false} RoomForWeight(c: Params, w: World, i: E.OperatorIndex, m: Measure)
    requires ParamsOk(c) && Inv(c, w) && w.box.Held() && VotesOk(c, w.operators, w.box.data)
    requires w.snapshot.Held() && w.snapshot.data.Finalized() && w.operators[i].Held() && m != Heads
    requires !HasVoted(w.box.data, c.operators[i])
    ensures Sum(Refinement.Cast(w.box.data.votes, MAX_OPERATORS, m)) + w.operators[i].data.weights.Amount(m)
         <= w.snapshot.data.weights.Amount(m)
  {
    var box := w.box.data;
    var cast := Refinement.Cast(box.votes, MAX_OPERATORS, m)[..box.operatorsVoted];
    var amounts := cast + [w.operators[i].data.weights.Amount(m)];
    var voters := Voters(c, box) + [i as nat];
    OneMoreVoter(c, w, i);
    CastIsRecorded(box, m);
    SumSnoc(cast, w.operators[i].data.weights.Amount(m));
    forall v | 0 <= v < |voters| ensures amounts[v] <= FinalWeights(w.operators, m)[voters[v]] {
      if v < |cast| {
        VoteIsCovered(c, w, v, m);
      } else {
        FinalMeansAllFinal(c, w);
      }
    }
    SumInjection(amounts, FinalWeights(w.operators, m), voters);
  }

  lemma {:induction false} TallyWithinCast(box: B.Box, t: nat, m: Measure)
    requires BallotBoxProofs.Valid(box) && t < |box.tallies|
    ensures box.tallies[t].Amount(m) <= Sum(Refinement.Cast(box.votes, MAX_OPERATORS, m))
  {
    Refinement.TalliedIsCast(box, m);
    SumAtLeast(Refinement.Tallied(box.tallies, m), t);
  }

  /** Counting a first vote overflows nothing. */
  lemma {:induction false} FirstVoteFits(c: Params, w: World, i: E.OperatorIndex, t: nat)
    requires ParamsOk(c) && Inv(c, w) && w.box.Held() && VotesOk(c, w.operators, w.box.data)
    requires w.snapshot.Held() && w.snapshot.data.Finalized() && w.operators[i].Held()
    requires !HasVoted(w.box.data, c.operators[i]) && t < MAX_OPERATORS
    ensures B.IncrementTally(w.box.data.tallies[t], w.operators[i].data.weights).Ok?
  {
    var tally, weights := w.box.data.tallies[t], w.operators[i].data.weights;
    forall m | m != Heads ensures tally.weights.Amount(m) + weights.Amount(m) <= w.snapshot.data.weights.Amount(m) {
      RoomForWeight(c, w, i, m);
      TallyWithinCast(w.box.data, t, m);
    }
    assert tally.weights.Amount(Stake) + weights.Amount(Stake) <= w.snapshot.data.weights.Amount(Stake);
    forall g | 0 <= g < FEE_GROUP_COUNT ensures tally.weights.groups[g] + weights.groups[g] <= U128_MAX {
      assert tally.weights.Amount(GroupStake(g)) + weights.Amount(GroupStake(g))
           <= w.snapshot.data.weights.Amount(GroupStake(g));
    }
    HeadsWithinTable(w.box.data, t);
  }

  lemma {:induction false} HeadsWithinTable(box: B.Box, t: nat)
    requires BallotBoxProofs.Valid(box) && t < |box.tallies|
    ensures box.tallies[t].tally <= MAX_OPERATORS
  {
    TallyWithinCast(box, t, Heads);
    SumOfFlags(Refinement.Cast(box.votes, MAX_OPERATORS, Heads));
  }

  /** Counting it finds a tally or a free slot. */
  lemma {:induction false} FirstVoteIsCounted(c: Params, w: World, i: E.OperatorIndex, ballot: B.Ballot)
    requires ParamsOk(c) && Inv(c, w) && w.box.Held() && VotesOk(c, w.operators, w.box.data)
    requires w.snapshot.Held() && w.snapshot.data.Finalized() && w.operators[i].Held()
    requires !HasVoted(w.box.data, c.operators[i]) && ballot.isValid
    ensures B.IncrementOrCreate(w.box.data, ballot, w.operators[i].data.weights).Ok?
  {
    var box := w.box.data;
    OneMoreVoter(c, w, i);
    var t := B.FindTally(box.tallies, ballot, 0);
    if t < |box.tallies| {
      FirstVoteFits(c, w, i, t);
    } else {
      Refinement.BallotTallyFullExactly(box, ballot, w.operators[i].data.weights);
      Refinement.BallotsWithinVoters(box);
    }
  }

  /** Recording it finds an empty slot. */
  lemma {:induction false} FirstVoteIsRecorded(box: B.Box, operator: Named, ballot: B.Ballot, weights: StakeWeights,
                                               slot: U64, validSlots: U64)
    requires BallotBoxProofs.Valid(box) && box.operatorsVoted < MAX_OPERATORS && !HasVoted(box, operator)
    requires ballot.isValid && B.IsVotingValid(box, slot, validSlots) == Ok(true)
    requires B.IncrementOrCreate(box, ballot, weights).Ok?
    ensures B.CastVote(box, operator, ballot, weights, slot, validSlots).Ok?
  {
    BallotBoxProofs.VoteSlot(box.votes, box.operatorsVoted, operator);
  }

  /** The ballot box takes it. */
  lemma {:induction false} FirstCastSucceeds(c: Params, w: World, i: E.OperatorIndex, ballot: B.Ballot)
    requires ParamsOk(c) && Inv(c, w) && w.box.Held() && VotesOk(c, w.operators, w.box.data)
    requires w.snapshot.Held() && w.snapshot.data.Finalized() && w.operators[i].Held()
    requires !HasVoted(w.box.data, c.operators[i])
    requires ballot.isValid && B.IsVotingValid(w.box.data, w.slot, c.validSlots) == Ok(true)
    ensures B.CastVote(w.box.data, c.operators[i], ballot, w.operators[i].data.weights, w.slot, c.validSlots).Ok?
  {
    OneMoreVoter(c, w, i);
    FirstVoteIsCounted(c, w, i, ballot);
    FirstVoteIsRecorded(w.box.data, c.operators[i], ballot, w.operators[i].data.weights, w.slot, c.validSlots);
  }

  /** The whole vote: cast, tally, and a winner that is found if there is one. */
  lemma {:induction false} FirstVoteSucceeds(c: Params, w: World, i: E.OperatorIndex, root: Digest)
    requires ParamsOk(c) && Inv(c, w) && w.box.Held() && VotesOk(c, w.operators, w.box.data)
    requires w.snapshot.Held() && w.snapshot.data.Finalized() && w.operators[i].Held()
    requires !HasVoted(w.box.data, c.operators[i]) && root != 0
    requires B.IsVotingValid(w.box.data, w.slot, c.validSlots) == Ok(true)
    requires Consensus.WinnerOk(w.box.data, c.threshold, w.snapshot.data.weights.total)
    ensures var vote := Consensus.Vote(w.box.data, c.threshold, w.snapshot.data.weights.total, c.operators[i],
                                       B.NewBallot(root),
                                       w.operators[i].data.weights, w.slot, c.validSlots);
      && (vote.Ok? <==> w.box.data.slotConsensus != B.NO_SLOT || w.snapshot.data.weights.total > 0)
      && (vote.Ok? && vote.value.IsConsensusReached() ==> B.GetWinningTally(vote.value).Ok?)
  {
    var total, weights, ballot := w.snapshot.data.weights.total, w.operators[i].data.weights, B.NewBallot(root);
    FirstCastSucceeds(c, w, i, ballot);
    CastTouchesVotesOnly(w.box.data, c.operators[i], ballot, weights, w.slot, c.validSlots);
    var vote := Consensus.Vote(w.box.data, c.threshold, total, c.operators[i], ballot, weights, w.slot, c.validSlots);
    if vote.Ok? {
      Consensus.VoteKeeps(w.box.data, c.threshold, total, c.operators[i], ballot, weights, w.slot, c.validSlots);
      Consensus.WinningTallyFound(vote.value, c.threshold, total);
    }
  }

  /** A vote that is not accepted says why. */
  lemma {:induction false} RefusedVote(c: Params, w: World, i: E.OperatorIndex, root: Digest)
    requires w.box.Live? && DoCastVote(c, w, i, root).Ok?
    ensures B.IsVotingValid(w.box.data, w.slot, c.validSlots) == Ok(true) && root != 0
  {
  }

  lemma {:induction false} HeardVote(c: Params, w: World, i: E.OperatorIndex, root: Digest)
    requires w.box.Live? && w.snapshot.Live? && w.snapshot.data.Finalized() && w.operators[i].Live?
    requires w.operators[i].data.operator == c.operators[i]
    ensures var vote := Consensus.Vote(w.box.data, c.threshold, w.snapshot.data.weights.total, c.operators[i],
                                       B.NewBallot(root),
                                       w.operators[i].data.weights, w.slot, c.validSlots);
      DoCastVote(c, w, i, root).Ok?
      <==> vote.Ok? && (vote.value.IsConsensusReached() ==> B.GetWinningTally(vote.value).Ok?)
  {
  }

  /** Liveness of voting: with its accounts at hand and the snapshot final, an operator who has not
      voted yet is heard exactly when votes are still accepted, the root is a root, and there is
      something to be a fraction of (or consensus has been reached). */
  lemma {:induction false} FirstVoteIsHeard(c: Params, w: World, i: E.OperatorIndex, root: Digest)
    requires ParamsOk(c) && Inv(c, w)
    requires w.box.Live? && w.snapshot.Live? && w.snapshot.data.Finalized() && w.operators[i].Live?
    requires !HasVoted(w.box.data, c.operators[i])
    ensures DoCastVote(c, w, i, root).Ok? <==>
      && B.IsVotingValid(w.box.data, w.slot, c.validSlots) == Ok(true)
      && root != 0
      && (w.box.data.slotConsensus != B.NO_SLOT || w.snapshot.data.weights.total > 0)
  {
    BoxMeetsSnapshot(c, w);
    assert OperatorAccountOk(c, i, w.operators[i], w.state.operators[i], OperatorCount(w.snapshot),
                             VaultCount(w.snapshot));
    HeardVote(c, w, i, root);
    if DoCastVote(c, w, i, root).Ok? {
      RefusedVote(c, w, i, root);
    }
    if root != 0 && B.IsVotingValid(w.box.data, w.slot, c.validSlots) == Ok(true) {
      FirstVoteSucceeds(c, w, i, root);
    }
  }

  // ------------------------------------------------------------------
  // Rewards
  // ------------------------------------------------------------------

  /** Base routing never gets stuck: in every state an epoch can be in, with its accounts at hand, it
      succeeds exactly when no more votes are accepted and the lamports ever received still fit 64
      bits. */
  lemma {:induction false} BaseRoutingNeverStuck(c: Params, w: World, maxIterations: U16)
    requires ParamsOk(c) && Inv(c, w)
    requires w.snapshot.Live? && w.box.Live? && w.base.Live?
    ensures var books := w.base.data.books;
      && w.baseBalance as nat >= c.rent as nat + books.processed as nat
      && (DoRouteBase(c, w, maxIterations).Ok? <==>
           && VotingOver(c, w.box.data, w.slot)
           && (w.base.data.StillRouting()
               || books.total as int + (w.baseBalance - books.processed - c.rent) <= U64_MAX))
  {
    UsedRouterOk(c, w);
    RouteBaseInWorld(c, w, maxIterations);
    if VotingOver(c, w.box.data, w.slot) {
      WinnerForRouting(c, w);
      BaseTheorems.RouteBaseSucceeds(w.base.data, w.box.data, c.threshold, w.snapshot.data.weights.total,
                                     w.snapshot.data.fees,
                                     c.rent, w.baseBalance, maxIterations);
    }
  }

  lemma {:induction false} RouteBaseInWorld(c: Params, w: World, maxIterations: U16)
    requires w.snapshot.Live? && w.box.Live? && w.base.Live?
    ensures DoRouteBase(c, w, maxIterations).Ok? <==>
      && VotingOver(c, w.box.data, w.slot)
      && BaseTheorems.RouteBase(w.base.data, w.box.data, w.snapshot.data.fees, c.rent, w.baseBalance, maxIterations).Ok?
  {
  }

  /** Neither do the operators' routers, as long as the snapshot did not grow under an interrupted run. */
  lemma {:induction false} NcnRoutingNeverStuck(c: Params, w: World, k: E.RouterIndex, maxIterations: U16)
    requires ParamsOk(c) && Inv(c, w)
    requires w.operators[E.OperatorOf(k)].Live? && w.ncn[k].Live? && !w.grown[k]
    ensures var books := w.ncn[k].data.books;
      && w.ncnBalances[k] as nat >= c.rent as nat + books.pool as nat + books.processed as nat
      && (DoRouteNcn(c, w, k, maxIterations).Ok? <==>
           || w.ncn[k].data.StillRouting()
           || books.total as int + (w.ncnBalances[k] - books.processed - c.rent) <= U64_MAX)
  {
    var i := E.OperatorOf(k);
    assert OperatorAccountOk(c, i, w.operators[i], w.state.operators[i], OperatorCount(w.snapshot),
                             VaultCount(w.snapshot));
    assert NcnRouterOk(c, k, w.ncn[k], w.operators[i], w.ncnBalances[k], w.state.ncn[k], w.grown[k]);
    NcnProofs.RouteNcnSucceeds(w.ncn[k].data, w.operators[i].data, E.GroupOf(k), c.rent, w.ncnBalances[k],
                               maxIterations);
  }

  /** On a snapshot that did grow, the rest of the run goes through exactly when the pool still covers
      the floored shares to come. */
  lemma {:induction false} GrownRunEndsExactly(c: Params, w: World, k: E.RouterIndex)
    requires ParamsOk(c) && Inv(c, w)
    requires w.operators[E.OperatorOf(k)].Live? && w.ncn[k].Live? && w.ncn[k].data.StillRouting()
    ensures w.ncn[k].data.cursor.slot < MAX_VAULTS
    ensures DoRouteNcn(c, w, k, U16_MAX).Ok? <==>
      var r := w.ncn[k].data;
      var shares := NcnProofs.VaultShares(w.operators[E.OperatorOf(k)].data, E.GroupOf(k), r.cursor.rewards);
      Sum(shares[r.cursor.slot..]) <= r.books.pool
  {
    var i := E.OperatorOf(k);
    assert OperatorAccountOk(c, i, w.operators[i], w.state.operators[i], OperatorCount(w.snapshot),
                             VaultCount(w.snapshot));
    assert NcnRouterOk(c, k, w.ncn[k], w.operators[i], w.ncnBalances[k], w.state.ncn[k], w.grown[k]);
    NcnProofs.InterruptedRunEndsExactly(w.ncn[k].data, w.operators[i].data, E.GroupOf(k));
  }

  lemma {:induction false} OnlyDelegationsGrow(c: Params, w: World, e: Event, k: E.RouterIndex)
    requires !e.SnapshotDelegation? && Instruction(c, w, e).Ok? && !w.grown[k]
    ensures !Instruction(c, w, e).value.grown[k]
  {
    if !BuildsSnapshots(e) && !VotesOrOpens(e) && !MovesRewards(e) {
      assert Closes(e);
    }
  }

  lemma {:induction false} DelegationsGrowOnlyOpen(w: World, i: E.OperatorIndex, d: Delegated, k: E.RouterIndex)
    requires DoSnapshotDelegation(w, i, d).Ok? && IsFinal(w.operators[E.OperatorOf(k)]) && !w.grown[k]
    ensures !DoSnapshotDelegation(w, i, d).value.grown[k]
  {
  }

  /** A snapshot can only grow before it is final, so with a final snapshot no run is caught by it. */
  lemma {:induction false} FinalSnapshotsDoNotGrow(c: Params, w: World, e: Event, k: E.RouterIndex)
    requires IsFinal(w.operators[E.OperatorOf(k)]) && !w.grown[k]
    ensures !Step(c, w, e).grown[k]
  {
    if Instruction(c, w, e).Ok? {
      if e.SnapshotDelegation? {
        DelegationsGrowOnlyOpen(w, e.operator, e.delegated, k);
      } else {
        OnlyDelegationsGrow(c, w, e, k);
      }
    }
  }

  lemma {:induction false} FinalSnapshotsStayCalm(c: Params, w: World, events: seq<Event>, k: E.RouterIndex)
    requires ParamsOk(c) && Inv(c, w) && IsFinal(w.operators[E.OperatorOf(k)]) && !w.grown[k]
    ensures IsFinal(Run(c, w, events).operators[E.OperatorOf(k)]) && !Run(c, w, events).grown[k]
    decreases |events|
  {
    if events != [] {
      var before := events[..|events| - 1];
      FinalSnapshotsStayCalm(c, w, before, k);
      RunKeeps(c, w, before);
      RunLater(c, w, events);
      assert OperatorsLater(w.operators, Run(c, w, events).operators, w.state.isClosing);
      FinalSnapshotsDoNotGrow(c, Run(c, w, before), events[|events| - 1], k);
    }
  }

  /** Only a run that is interrupted is marked. */
  ghost predicate MarkedIsRouting(w: World, k: E.RouterIndex) {
    w.grown[k] ==> w.ncn[k].Held() && w.ncn[k].data.StillRouting()
  }

  lemma {:induction false} NcnEventsMarkRouting(c: Params, w: World, e: Event, k: E.RouterIndex)
    requires MarkedIsRouting(w, k) && Instruction(c, w, e).Ok?
    requires e.InitNcnRouter? || e.RouteNcn? || e.DistributeNcnOperator? || e.DistributeNcnVault? || e.CloseNcnRouter?
    ensures MarkedIsRouting(Instruction(c, w, e).value, k)
  {
  }

  lemma {:induction false} DelegationMarksRouting(w: World, i: E.OperatorIndex, d: Delegated, k: E.RouterIndex)
    requires MarkedIsRouting(w, k) && DoSnapshotDelegation(w, i, d).Ok?
    ensures MarkedIsRouting(DoSnapshotDelegation(w, i, d).value, k)
  {
  }

  /** No other event touches the routers of the operators. */
  lemma {:induction false} OtherEventsSpareRouters(c: Params, w: World, e: Event)
    requires !e.InitNcnRouter? && !e.RouteNcn? && !e.DistributeNcnOperator? && !e.DistributeNcnVault?
    requires !e.CloseNcnRouter? && !e.SnapshotDelegation? && Instruction(c, w, e).Ok?
    ensures Instruction(c, w, e).value.ncn == w.ncn && Instruction(c, w, e).value.grown == w.grown
  {
  }

  /** So in every run, a router is marked only while its run is under way. */
  lemma {:induction false} MarkedMeansRouting(c: Params, slot: U64, events: seq<Event>, k: E.RouterIndex)
    ensures MarkedIsRouting(Run(c, Start(slot), events), k)
    decreases |events|
  {
    if events != [] {
      var before, e := events[..|events| - 1], events[|events| - 1];
      var w := Run(c, Start(slot), before);
      MarkedMeansRouting(c, slot, before, k);
      if Instruction(c, w, e).Ok? {
        if e.SnapshotDelegation? {
          DelegationMarksRouting(w, e.operator, e.delegated, k);
        } else if e.InitNcnRouter? || e.RouteNcn? || e.DistributeNcnOperator? || e.DistributeNcnVault?
                  || e.CloseNcnRouter? {
          NcnEventsMarkRouting(c, w, e, k);
        } else {
          OtherEventsSpareRouters(c, w, e);
        }
      }
    }
  }

  /** Payouts only wait for routing: with its accounts at hand every bucket can be paid out, unless
      the counter of all payouts overflows. */
  lemma {:induction false} PayoutsNeverStuck(c: Params, w: World, g: Group)
    requires ParamsOk(c) && Inv(c, w) && w.base.Live?
    ensures DoDistributeBase(w, g).Ok? <==>
      !w.base.data.StillRouting() && w.state.total.tally + w.base.data.books.base[g] <= U64_MAX
  {
    if !w.base.data.StillRouting() {
      var box := PayingRouterOk(c, w);
      BaseTheorems.DistributeBaseKeeps(w.base.data, box, g);
    }
  }

  ghost predicate HasRoute(routes: seq<Base.Route>, operator: Key) {
    exists i :: 0 <= i < |routes| && routes[i].operator == operator
  }

  /** A route moves on, too: with both routers at hand exactly when no run is under way, the operator
      has a route, and the other receiver's balance still fits 64 bits. */
  lemma {:induction false} RoutesNeverStuck(c: Params, w: World, k: E.RouterIndex)
    requires ParamsOk(c) && Inv(c, w) && w.base.Live? && w.ncn[k].Live?
    ensures var routes, operator := w.base.data.books.routes, c.operators[E.OperatorOf(k)];
      DoDistributeBaseNcn(c, w, k).Ok? <==>
        && !w.base.data.StillRouting() && HasRoute(routes, operator)
        && w.ncnBalances[k] + BaseProofs.Owed(routes, operator, E.GroupOf(k)) <= U64_MAX
  {
    if !w.base.data.StillRouting() {
      var box := PayingRouterOk(c, w);
      BaseTheorems.DistributeRouteKeeps(w.base.data, box, E.GroupOf(k), c.operators[E.OperatorOf(k)]);
    }
  }

  /** The operator's bucket of one of its routers. */
  lemma {:induction false} OperatorPayoutsNeverStuck(c: Params, w: World, k: E.RouterIndex)
    requires ParamsOk(c) && Inv(c, w) && w.operators[E.OperatorOf(k)].Live? && w.ncn[k].Live?
    ensures DoDistributeNcnOperator(w, k).Ok? <==>
      && !w.ncn[k].data.StillRouting()
      && w.state.total.tally + w.ncn[k].data.books.operatorRewards <= U64_MAX
  {
    RouterOkAt(c, w, k);
    if !w.ncn[k].data.StillRouting() {
      NcnProofs.DistributeOperatorKeeps(w.ncn[k].data, w.operators[E.OperatorOf(k)].data);
    }
  }

  ghost predicate HasVaultRoute(routes: seq<Ncn.VaultRoute>, vault: Key) {
    exists i :: 0 <= i < |routes| && routes[i].vault == vault
  }

  /** And the vaults'. */
  lemma {:induction false} VaultPayoutsNeverStuck(c: Params, w: World, k: E.RouterIndex, vault: Named)
    requires ParamsOk(c) && Inv(c, w) && w.operators[E.OperatorOf(k)].Live? && w.ncn[k].Live?
    ensures DoDistributeNcnVault(w, k, vault).Ok? <==>
      && !w.ncn[k].data.StillRouting() && HasVaultRoute(w.ncn[k].data.books.routes, vault)
      && w.state.total.tally + NcnProofs.Owed(w.ncn[k].data.books.routes, vault) <= U64_MAX
  {
    RouterOkAt(c, w, k);
    if !w.ncn[k].data.StillRouting() {
      NcnProofs.DistributeVaultKeeps(w.ncn[k].data, w.operators[E.OperatorOf(k)].data, vault);
    }
  }

  /** A live base router: its buckets make up what is processed, its receiver covers rent, pool and
      what is not yet paid, and the epoch state's counter shadows it. */
  ghost predicate BaseAccounted(w: World, router: Base.Router, rent: nat) {
    var books := router.books;
    && books.processed == Sum(books.base) + Sum(books.ncn) + Sum(BaseProofs.RouteTotals(books.routes))
    && w.baseBalance as nat >= rent + books.pool as nat + books.processed as nat
    && w.state.base.total == books.total
    && w.state.base.tally + books.pool + books.processed == books.total
  }

  /** The same for one of the operators' routers. */
  ghost predicate NcnAccounted(w: World, k: E.RouterIndex, router: Ncn.Router, rent: nat) {
    var books := router.books;
    && books.processed == books.operatorRewards + Sum(NcnProofs.RouteRewards(books.routes))
    && w.ncnBalances[k] as nat >= rent + books.pool as nat + books.processed as nat
    && w.state.ncn[k].total == books.total
    && w.state.ncn[k].tally + books.pool + books.processed == books.total
  }

  /** Conservation and solvency at every instruction boundary: every lamport ever deposited was paid
      out, swept to the DAO, or is still held above rent, every live router is accounted for, and the
      total to be paid out is what the base router took in. */
  lemma {:induction false} LamportsAreConserved(c: Params, w: World)
    requires ParamsOk(c) && Reachable(c, w)
    ensures w.deposited
         == w.state.total.tally + w.swept + AboveRent(w.base, w.baseBalance, c.rent)
            + Sum(AboveRents(w.ncn, w.ncnBalances, c.rent))
    ensures w.state.total.total == BaseTotal(w.base)
    ensures w.base.Live? ==> BaseAccounted(w, w.base.data, c.rent)
    ensures forall k: E.RouterIndex :: w.ncn[k].Live? ==> NcnAccounted(w, k, w.ncn[k].data, c.rent)
  {
    ReachableInv(c, w);
    var slot: U64, events :| 0 < slot < E.NO_CONSENSUS && w == Run(c, Start(slot), events);
    RunCounts(c, slot, events);
    if w.base.Live? {
      var box := PayingRouterOk(c, w);
    }
    forall k: E.RouterIndex | w.ncn[k].Live? ensures NcnAccounted(w, k, w.ncn[k].data, c.rent) {
      RouterOkAt(c, w, k);
    }
  }

  // ------------------------------------------------------------------
  // Phases
  // ------------------------------------------------------------------

  function PhaseOf(c: Params, w: World): Result<E.Phase> {
    E.CurrentState(w.state, c.epochOf, c.validSlots, c.epochsBeforeClose, w.slot)
  }

  /** The first two phases end exactly when the table and the snapshot are final, even though the
      epoch state only has counters to go by. */
  lemma {:induction false} PhaseMeansFinal(c: Params, w: World)
    requires ParamsOk(c) && Inv(c, w) && PhaseOf(c, w).Ok?
    ensures PhaseOf(c, w).value.Rank() >= 1 <==> w.table.Held() && w.table.data.Finalized()
    ensures PhaseOf(c, w).value.Rank() >= 2 <==> w.snapshot.Held() && w.snapshot.data.Finalized()
  {
    if w.snapshot.Held() {
      FinalMeansAllFinal(c, w);
    }
  }

  /** The other two are decided by consensus and time alone. */
  lemma {:induction false} PhaseMeansTime(c: Params, w: World)
    requires ParamsOk(c) && Inv(c, w) && PhaseOf(c, w).Ok? && PhaseOf(c, w).value.Rank() >= 2
    ensures PhaseOf(c, w).value.Rank() >= 3
       <==> w.state.IsConsensusReached() && w.slot >= w.state.slotConsensus + c.validSlots
    ensures PhaseOf(c, w).value.Rank() == 4 <==>
      && w.state.IsConsensusReached() && w.slot >= w.state.slotConsensus + c.validSlots
      && c.epochOf(w.slot) - c.epochOf(w.state.slotConsensus) >= c.epochsBeforeClose
  {
    if w.state.IsConsensusReached() {
      assert c.epochOf(w.state.slotConsensus) <= c.epochOf(w.slot);
    }
  }

  /** The phase, read off the accounts and the clock: the weight table, the snapshot, consensus, the slots
      for which votes are still accepted, and the epochs to wait before closing. It is missing only if the
      end of the vote has no slot. */
  function PhaseByAccounts(c: Params, w: World): Result<E.Phase> {
    if !w.table.Held() || !w.table.data.Finalized() then Ok(E.SetWeightPhase)
    else if !w.snapshot.Held() || !w.snapshot.data.Finalized() then Ok(E.SnapshotPhase)
    else if !w.box.Held() || !w.box.data.IsConsensusReached() then Ok(E.VotePhase)
    else if w.state.slotConsensus + c.validSlots > U64_MAX then Err(ArithmeticOverflow)
    else if w.slot < w.state.slotConsensus + c.validSlots then Ok(E.VotePhase)
    else if c.epochOf(w.slot) - c.epochOf(w.state.slotConsensus) < c.epochsBeforeClose then Ok(E.DistributePhase)
    else Ok(E.ClosePhase)
  }

  lemma {:induction false} PhaseExactly(c: Params, w: World)
    requires ParamsOk(c) && Inv(c, w)
    ensures PhaseOf(c, w) == PhaseByAccounts(c, w)
  {
    if w.snapshot.Held() {
      FinalMeansAllFinal(c, w);
    }
    if w.state.IsConsensusReached() {
      assert c.epochOf(w.state.slotConsensus) <= c.epochOf(w.slot);
    }
  }

  /** Phase order: whatever happens in between, the phase never moves backwards. */
  lemma {:induction false} PhasesNeverGoBack(c: Params, w: World, events: seq<Event>)
    requires ParamsOk(c) && Reachable(c, w)
    requires PhaseOf(c, w).Ok? && PhaseOf(c, Run(c, w, events)).Ok?
    ensures PhaseOf(c, w).value.Rank() <= PhaseOf(c, Run(c, w, events)).value.Rank()
  {
    ReachableInv(c, w);
    RunKeeps(c, w, events);
    RunLater(c, w, events);
    PhaseIsRead(c, w);
    PhaseIsRead(c, Run(c, w, events));
    LaterPhase(c, w, Run(c, w, events), PhaseOf(c, w).value.Rank(), PhaseOf(c, Run(c, w, events)).value.Rank());
  }

  /** A phase read off the accounts and the clock. */
  ghost predicate PhaseReads(c: Params, w: World, rank: nat) {
    && rank <= 4
    && (rank >= 1 <==> w.table.Held() && w.table.data.Finalized())
    && (rank >= 2 <==> w.snapshot.Held() && w.snapshot.data.Finalized())
    && (rank >= 2 ==> (rank >= 3 <==> w.state.IsConsensusReached() && w.slot >= w.state.slotConsensus + c.validSlots))
    && (rank >= 2 ==> (rank == 4 <==>
         && w.state.IsConsensusReached() && w.slot >= w.state.slotConsensus + c.validSlots
         && c.epochOf(w.slot) - c.epochOf(w.state.slotConsensus) >= c.epochsBeforeClose))
  }

  lemma {:induction false} PhaseIsRead(c: Params, w: World)
    requires ParamsOk(c) && Inv(c, w) && PhaseOf(c, w).Ok?
    ensures PhaseReads(c, w, PhaseOf(c, w).value.Rank())
  {
    PhaseMeansFinal(c, w);
    if PhaseOf(c, w).value.Rank() >= 2 {
      PhaseMeansTime(c, w);
    }
  }

  lemma {:induction false} LaterPhase(c: Params, w: World, w': World, rank: nat, rank': nat)
    requires ParamsOk(c) && Later(w, w')
    requires PhaseReads(c, w, rank) && PhaseReads(c, w', rank')
    ensures rank <= rank'
  {
    assert c.epochOf(w.slot) <= c.epochOf(w'.slot);
  }

  // ------------------------------------------------------------------
  // The end of the epoch
  // ------------------------------------------------------------------

  /** The epoch state is closed last, and then nothing can happen to the epoch any more but deposits
      and the passing of time. */
  lemma {:induction false} EpochStateClosesLast(c: Params, w: World, e: Event)
    requires ParamsOk(c) && Reachable(c, w) && w.stateClosed
    ensures w.table.Closed? && w.snapshot.Closed? && w.box.Closed? && w.base.Closed?
    ensures forall i: E.OperatorIndex :: !w.operators[i].Live?
    ensures forall k: E.RouterIndex :: !w.ncn[k].Live?
    ensures Instruction(c, w, e).Ok? ==> e.Tick? || e.DepositBase? || e.DepositNcn?
  {
    ReachableInv(c, w);
    forall i: E.OperatorIndex ensures !w.operators[i].Live? {
      assert Mirrors(w.operators[i], w.state.status.operators[i], E.Created);
    }
    forall k: E.RouterIndex ensures !w.ncn[k].Live? {
      assert Mirrors(w.ncn[k], w.state.status.ncnRouters[k], E.CreatedWithReceiver);
    }
  }
}
