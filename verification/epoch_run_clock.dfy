/** When things happened first. The slots that the epoch state and the snapshots record are those of the
    event that reached consensus, or that made the snapshot final. */
module EpochRunClock {
  import opened Common
  import opened InstructionsSpec
  import opened EpochRunSpec
  import opened EpochRunInvariants
  import opened EpochRunOperators
  import opened EpochRunVotes
  import opened EpochRunClosing
  import opened EpochRunProgress
  import opened EpochRunHistory
  import S = EpochSnapshotSpec
  import SnapshotProofs = EpochSnapshotProofs
  import E = EpochStateSpec

  /** The slot of the first event after which something was so. */
  function SlotOfFirst(c: Params, start: World, events: seq<Event>, p: World -> bool): Option<U64>
    decreases |events|
  {
    if events == [] then None
    else
      var before := events[..|events| - 1];
      var earlier := SlotOfFirst(c, start, before, p);
      if earlier.Some? || !p(Run(c, start, events)) then earlier else Some(Run(c, start, before).slot)
  }

  /** Something that stays so, and a slot that is written when it becomes so and never again. */
  ghost predicate Stamps(c: Params, p: World -> bool, stamp: World -> U64) {
    forall w: World, e: Event {:trigger Step(c, w, e)} :: Inv(c, w) ==> Stamped(c, p, stamp, w, e)
  }

  ghost predicate Stamped(c: Params, p: World -> bool, stamp: World -> U64, w: World, e: Event) {
    var w' := Step(c, w, e);
    && (p(w) ==> p(w') && stamp(w') == stamp(w))
    && (!p(w) && p(w') ==> stamp(w') == w.slot)
  }

  lemma {:induction false} StampIsFirst(c: Params, slot: U64, events: seq<Event>, p: World -> bool,
                                        stamp: World -> U64)
    requires ParamsOk(c) && 0 < slot < E.NO_CONSENSUS && Stamps(c, p, stamp) && !p(Start(slot))
    ensures var w, first := Run(c, Start(slot), events), SlotOfFirst(c, Start(slot), events, p);
      && (p(w) <==> first.Some?)
      && (p(w) ==> stamp(w) == first.value)
    decreases |events|
  {
    if events != [] {
      var before, e := events[..|events| - 1], events[|events| - 1];
      var w := Run(c, Start(slot), before);
      StampIsFirst(c, slot, before, p, stamp);
      StartInv(c, slot);
      RunKeeps(c, Start(slot), before);
      assert Stamped(c, p, stamp, w, e);
    }
  }

  // ------------------------------------------------------------------
  // Consensus
  // ------------------------------------------------------------------

  /** The ballot box has a winner, by votes or by the tie-break. */
  predicate HasConsensus(w: World) {
    w.box.Held() && (w.box.data.slotConsensus != U64_MAX || w.box.data.winning.isValid)
  }

  function ConsensusStamp(w: World): U64 {
    w.state.slotConsensus
  }

  lemma {:induction false} BuildingSparesClock(c: Params, w: World, e: Event)
    requires BuildsSnapshots(e) && Instruction(c, w, e).Ok?
    ensures Instruction(c, w, e).value.state.slotConsensus == w.state.slotConsensus
  {
  }

  lemma {:induction false} OpeningSparesClock(c: Params, w: World, e: Event)
    requires VotesOrOpens(e) && !e.CastVote? && !e.SetTieBreaker? && Instruction(c, w, e).Ok?
    ensures Instruction(c, w, e).value.state.slotConsensus == w.state.slotConsensus
  {
  }

  lemma {:induction false} MovingSparesClock(c: Params, w: World, e: Event)
    requires MovesRewards(e) && Instruction(c, w, e).Ok?
    ensures Instruction(c, w, e).value.state.slotConsensus == w.state.slotConsensus
  {
  }

  lemma {:induction false} ClosingSparesClock(c: Params, w: World, e: Event)
    requires Closes(e) && Instruction(c, w, e).Ok?
    ensures Instruction(c, w, e).value.state.slotConsensus == w.state.slotConsensus
  {
  }

  lemma {:induction false} VotesStampNow(c: Params, w: World, e: Event)
    requires ParamsOk(c) && Inv(c, w) && (e.CastVote? || e.SetTieBreaker?) && Instruction(c, w, e).Ok?
    ensures Instruction(c, w, e).value.state.slotConsensus in {w.state.slotConsensus, w.slot}
  {
    if e.CastVote? {
      var box' := VoteInRun(c, w, e.operator, e.root);
    } else {
      var box' := TieBreakInRun(c, w, e.root);
    }
  }

  /** Only votes and the tie-break write the slot, and they write the slot they happen in. */
  lemma {:induction false} ConsensusIsNow(c: Params, w: World, e: Event)
    requires ParamsOk(c) && Inv(c, w)
    ensures Step(c, w, e).state.slotConsensus in {w.state.slotConsensus, w.slot}
  {
    if Instruction(c, w, e).Ok? {
      if BuildsSnapshots(e) {
        BuildingSparesClock(c, w, e);
      } else if e.CastVote? || e.SetTieBreaker? {
        VotesStampNow(c, w, e);
      } else if VotesOrOpens(e) {
        OpeningSparesClock(c, w, e);
      } else if MovesRewards(e) {
        MovingSparesClock(c, w, e);
      } else {
        ClosingSparesClock(c, w, e);
      }
    }
  }

  lemma {:induction false} ConsensusInState(c: Params, w: World)
    requires Inv(c, w)
    ensures HasConsensus(w) <==> w.state.slotConsensus != E.NO_CONSENSUS
  {
  }

  lemma {:induction false} ConsensusStays(w: World, w': World)
    requires Later(w, w') && HasConsensus(w)
    ensures HasConsensus(w') && (w.state.IsConsensusReached() ==> w'.state.slotConsensus == w.state.slotConsensus)
  {
  }

  lemma {:induction false} ConsensusStamped(c: Params, w: World, e: Event)
    requires ParamsOk(c) && Inv(c, w)
    ensures Stamped(c, HasConsensus, ConsensusStamp, w, e)
  {
    StepKeeps(c, w, e);
    StepLater(c, w, e);
    ConsensusIsNow(c, w, e);
    ConsensusInState(c, w);
    ConsensusInState(c, Step(c, w, e));
    if HasConsensus(w) {
      ConsensusStays(w, Step(c, w, e));
    }
  }

  /** Over every run: the epoch state reports the slot of the event that first reached consensus,
      whether a vote or the tie-break, and none before; and once it is closing, at least the required
      epochs have passed since that slot. */
  lemma {:induction false} ConsensusSlotIsFirst(c: Params, slot: U64, events: seq<Event>)
    requires ParamsOk(c) && 0 < slot < E.NO_CONSENSUS
    ensures var w, first := Run(c, Start(slot), events), SlotOfFirst(c, Start(slot), events, HasConsensus);
      && w.state.slotConsensus == (if first.Some? then first.value else U64_MAX)
      && (HasConsensus(w) <==> first.Some?)
      && (w.state.isClosing ==>
           && first.Some? && first.value <= w.slot
           && c.epochOf(w.slot) - c.epochOf(first.value) >= c.epochsBeforeClose)
  {
    forall w: World, e: Event | Inv(c, w) ensures Stamped(c, HasConsensus, ConsensusStamp, w, e) {
      ConsensusStamped(c, w, e);
    }
    StampIsFirst(c, slot, events, HasConsensus, ConsensusStamp);
    StartInv(c, slot);
    RunKeeps(c, Start(slot), events);
    var w := Run(c, Start(slot), events);
    ConsensusInState(c, w);
    if w.state.isClosing {
      ClosingWaits(c, w);
    }
  }

  lemma {:induction false} ClosingWaits(c: Params, w: World)
    requires ParamsOk(c) && Inv(c, w) && w.state.isClosing
    ensures w.state.slotConsensus != E.NO_CONSENSUS && w.state.slotConsensus <= w.slot
    ensures c.epochOf(w.slot) - c.epochOf(w.state.slotConsensus) >= c.epochsBeforeClose
  {
    assert c.epochOf(w.state.slotConsensus) <= c.epochOf(w.slot);
  }

  // ------------------------------------------------------------------
  // Final snapshots
  // ------------------------------------------------------------------

  function FinalOperator(i: E.OperatorIndex): World -> bool {
    (w: World) => IsFinal(w.operators[i])
  }

  function OperatorStamp(i: E.OperatorIndex): World -> U64 {
    (w: World) => if w.operators[i].Held() then w.operators[i].data.slotFinalized else 0
  }

  /** The slot of an operator's snapshot changes when it becomes final, to the slot of that event. */
  ghost predicate Dated(a: Account<S.OperatorSnapshot>, a': Account<S.OperatorSnapshot>, slot: U64) {
    && (IsFinal(a) ==> IsFinal(a') && a'.data == a.data)
    && (!IsFinal(a) && IsFinal(a') ==> a'.data.slotFinalized == slot)
  }

  lemma {:induction false} DelegationDates(w: World, i: E.OperatorIndex, d: Delegated)
    requires DoSnapshotDelegation(w, i, d).Ok? && SnapshotProofs.OperatorOk(w.operators[i].data)
    ensures w.operators[i].Live?
    ensures Dated(w.operators[i], DoSnapshotDelegation(w, i, d).value.operators[i], w.slot)
  {
    var delegation := DelegationOf(w.table.data, d).value;
    SnapshotProofs.RegisterDelegationExactly(w.operators[i].data, w.slot, delegation);
  }

  lemma {:induction false} OpeningDates(c: Params, w: World, i: E.OperatorIndex, isActive: bool, feeBps: Bps)
    requires DoReallocOperator(c, w, i, isActive, feeBps).Ok? && w.snapshot.data.vaultCount > 0
    ensures Dated(w.operators[i], DoReallocOperator(c, w, i, isActive, feeBps).value.operators[i], w.slot)
  {
    SnapshotProofs.InitOperatorExactly(c.operators[i], i, isActive, feeBps, w.snapshot.data.vaultCount, w.slot);
  }

  /** Every active operator expects at least one delegation. */
  lemma {:induction false} VaultsExpected(c: Params, w: World)
    requires Inv(c, w) && w.snapshot.Held()
    ensures w.snapshot.data.vaultCount > 0
  {
  }

  /** No event touches another operator's snapshot. */
  lemma {:induction false} OtherOperators(c: Params, w: World, e: Event, i: E.OperatorIndex)
    requires (e.ReallocOperatorSnapshot? || e.SnapshotDelegation?) && e.operator != i && Instruction(c, w, e).Ok?
    ensures Instruction(c, w, e).value.operators[i] == w.operators[i]
  {
  }

  lemma {:induction false} TablesSpareOperators(c: Params, w: World, e: Event, i: E.OperatorIndex)
    requires (e.ReallocWeightTable? || e.SetWeight? || e.InitEpochSnapshot?) && Instruction(c, w, e).Ok?
    ensures Instruction(c, w, e).value.operators[i] == w.operators[i]
  {
  }

  lemma {:induction false} OperatorIsDated(c: Params, w: World, e: Event, i: E.OperatorIndex)
    requires Inv(c, w) && Instruction(c, w, e).Ok?
    ensures Dated(w.operators[i], Instruction(c, w, e).value.operators[i], w.slot)
  {
    if e.SnapshotDelegation? && e.operator == i {
      assert OperatorAccountOk(c, i, w.operators[i], w.state.operators[i], OperatorCount(w.snapshot),
                               VaultCount(w.snapshot));
      DelegationDates(w, i, e.delegated);
    } else if e.ReallocOperatorSnapshot? && e.operator == i {
      VaultsExpected(c, w);
      OpeningDates(c, w, i, e.isActive, e.feeBps);
    } else if e.SnapshotDelegation? || e.ReallocOperatorSnapshot? {
      OtherOperators(c, w, e, i);
    } else if TellsSomething(e) {
      TablesSpareOperators(c, w, e, i);
    } else {
      OthersSpare(c, w, e);
      assert SameData(w.operators[i], Instruction(c, w, e).value.operators[i]);
    }
  }

  predicate SnapshotIsFinal(w: World) {
    w.snapshot.Held() && w.snapshot.data.Finalized()
  }

  function SnapshotStamp(w: World): U64 {
    if w.snapshot.Held() then w.snapshot.data.slotFinalized else 0
  }

  lemma {:induction false} OperatorsDateSnapshot(c: Params, w: World, e: Event)
    requires (e.ReallocOperatorSnapshot? || e.SnapshotDelegation?) && Instruction(c, w, e).Ok?
    requires !SnapshotIsFinal(w) && SnapshotIsFinal(Instruction(c, w, e).value)
    ensures SnapshotStamp(Instruction(c, w, e).value) == w.slot
  {
  }

  lemma {:induction false} OthersDoNotFinish(c: Params, w: World, e: Event)
    requires !e.ReallocOperatorSnapshot? && !e.SnapshotDelegation? && Instruction(c, w, e).Ok?
    requires !SnapshotIsFinal(w)
    ensures !SnapshotIsFinal(Instruction(c, w, e).value)
  {
    if !TellsSomething(e) {
      OthersSpare(c, w, e);
    }
  }

  lemma {:induction false} FinalStays(w: World, w': World)
    requires Later(w, w') && SnapshotIsFinal(w)
    ensures SnapshotIsFinal(w') && SnapshotStamp(w') == SnapshotStamp(w)
  {
  }

  lemma {:induction false} SnapshotStamped(c: Params, w: World, e: Event)
    requires ParamsOk(c) && Inv(c, w)
    ensures Stamped(c, SnapshotIsFinal, SnapshotStamp, w, e)
  {
    if SnapshotIsFinal(w) {
      StepLater(c, w, e);
      FinalStays(w, Step(c, w, e));
    } else if Instruction(c, w, e).Ok? && SnapshotIsFinal(Instruction(c, w, e).value) {
      if e.ReallocOperatorSnapshot? || e.SnapshotDelegation? {
        OperatorsDateSnapshot(c, w, e);
      } else {
        OthersDoNotFinish(c, w, e);
      }
    }
  }

  lemma {:induction false} OperatorStamped(c: Params, w: World, e: Event, i: E.OperatorIndex)
    requires Inv(c, w)
    ensures Stamped(c, FinalOperator(i), OperatorStamp(i), w, e)
  {
    if Instruction(c, w, e).Ok? {
      OperatorIsDated(c, w, e, i);
    }
  }

  /** A final snapshot, of an operator or of the epoch, records the slot of the event that made it final. */
  lemma {:induction false} FinalSlotsAreFirst(c: Params, slot: U64, events: seq<Event>, i: E.OperatorIndex)
    requires ParamsOk(c) && 0 < slot < E.NO_CONSENSUS
    ensures var w, start := Run(c, Start(slot), events), Start(slot);
      && (IsFinal(w.operators[i]) ==>
           SlotOfFirst(c, start, events, FinalOperator(i)) == Some(w.operators[i].data.slotFinalized))
      && (SnapshotIsFinal(w) ==>
           SlotOfFirst(c, start, events, SnapshotIsFinal) == Some(w.snapshot.data.slotFinalized))
  {
    forall w: World, e: Event | Inv(c, w)
      ensures Stamped(c, FinalOperator(i), OperatorStamp(i), w, e) && Stamped(c, SnapshotIsFinal, SnapshotStamp, w, e)
    {
      OperatorStamped(c, w, e, i);
      SnapshotStamped(c, w, e);
    }
    StampIsFirst(c, slot, events, FinalOperator(i), OperatorStamp(i));
    StampIsFirst(c, slot, events, SnapshotIsFinal, SnapshotStamp);
  }
}
