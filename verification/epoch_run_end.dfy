/** How an epoch ends: a closing epoch can be closed to its end exactly when it has a base router. */
module EpochRunEnd {
  import opened Common
  import opened EpochRunSpec
  import opened EpochRunInvariants
  import opened EpochRunSnapshots
  import opened EpochRunClosing
  import opened EpochRunProgress
  import E = EpochStateSpec

  // ------------------------------------------------------------------
  // Runs one after the other
  // ------------------------------------------------------------------

  lemma {:induction false} RunConcat(c: Params, w: World, first: seq<Event>, second: seq<Event>)
    ensures Run(c, w, first + second) == Run(c, Run(c, w, first), second)
    decreases |second|
  {
    if second == [] {
      assert first + second == first;
    } else {
      var n := |second| - 1;
      assert (first + second)[..|first + second| - 1] == first + second[..n];
      RunConcat(c, w, first, second[..n]);
    }
  }

  lemma {:induction false} RunOne(c: Params, w: World, e: Event)
    ensures Run(c, w, [e]) == Step(c, w, e)
  {
    assert [e][..0] == [];
    assert Run(c, w, []) == w;
  }

  /** One more instruction that succeeds keeps a state reachable. */
  lemma {:induction false} ReachableNext(c: Params, w: World, e: Event)
    requires Reachable(c, w)
    ensures Reachable(c, Step(c, w, e))
  {
    var slot: U64, events :| 0 < slot < E.NO_CONSENSUS && w == Run(c, Start(slot), events);
    RunOne(c, w, e);
    RunConcat(c, Start(slot), events, [e]);
  }

  // ------------------------------------------------------------------
  // Closing everything
  // ------------------------------------------------------------------

  /** An account that does not keep the epoch state open. */
  predicate Settled<T>(a: Account<T>) {
    a.Absent? || a.Closed?
  }

  /** A closing epoch that has a base router and still has its state. */
  ghost predicate CanEnd(c: Params, w: World) {
    ParamsOk(c) && Inv(c, w) && w.state.isClosing && !w.stateClosed && !w.base.Absent?
  }

  /** From `w` a run leads to `w'`, with nothing reopened on the way. */
  ghost predicate LeadsTo(c: Params, w: World, w': World) {
    && Later(w, w')
    && exists events :: Run(c, w, events) == w'
  }

  lemma {:induction false} LeadsToSelf(c: Params, w: World)
    ensures LeadsTo(c, w, w)
  {
    LaterRefl(w);
    assert Run(c, w, []) == w;
  }

  lemma {:induction false} LeadsToTrans(c: Params, w: World, w1: World, w2: World)
    requires LeadsTo(c, w, w1) && LeadsTo(c, w1, w2)
    ensures LeadsTo(c, w, w2)
  {
    var first :| Run(c, w, first) == w1;
    var second :| Run(c, w1, second) == w2;
    RunConcat(c, w, first, second);
    LaterTrans(w, w1, w2);
  }

  lemma {:induction false} LeadsToStep(c: Params, w: World, e: Event)
    requires CanEnd(c, w) && Instruction(c, w, e).Ok?
    requires !Instruction(c, w, e).value.stateClosed
    ensures LeadsTo(c, w, Instruction(c, w, e).value) && CanEnd(c, Instruction(c, w, e).value)
  {
    RunOne(c, w, e);
    StepKeeps(c, w, e);
    StepLater(c, w, e);
    StillCanEnd(c, w, Instruction(c, w, e).value);
  }

  lemma {:induction false} StillCanEnd(c: Params, w: World, w': World)
    requires w.state.isClosing && !w.base.Absent? && Later(w, w') && ParamsOk(c) && Inv(c, w') && !w'.stateClosed
    ensures CanEnd(c, w')
  {
  }

  /** What settled stays settled. */
  lemma {:induction false} StaysSettled(c: Params, w: World, w': World)
    requires w.state.isClosing && LeadsTo(c, w, w')
    ensures Settled(w.table) ==> Settled(w'.table)
    ensures Settled(w.snapshot) ==> Settled(w'.snapshot)
    ensures Settled(w.box) ==> Settled(w'.box)
    ensures Settled(w.base) ==> Settled(w'.base)
    ensures forall i: E.OperatorIndex :: Settled(w.operators[i]) ==> Settled(w'.operators[i])
    ensures forall k: E.RouterIndex :: Settled(w.ncn[k]) ==> Settled(w'.ncn[k])
  {
    forall i: E.OperatorIndex | Settled(w.operators[i]) ensures Settled(w'.operators[i]) {
      assert Forward(w.operators[i], w'.operators[i], true);
    }
    forall k: E.RouterIndex | Settled(w.ncn[k]) ensures Settled(w'.ncn[k]) {
      assert Forward(w.ncn[k], w'.ncn[k], true);
    }
  }

  /** Closing has begun, so consensus was reached: the table, the snapshot and the box exist, no
      operator snapshot is half made, and every close is granted. */
  lemma {:induction false} ClosingHasAccounts(c: Params, w: World)
    requires CanEnd(c, w)
    ensures w.table.Held() && w.snapshot.Held() && w.box.Held()
    ensures E.CanClose(w.state, c.epochOf, c.epochsBeforeClose, w.slot) == Ok(true)
    ensures forall i: E.OperatorIndex :: !w.operators[i].Absent? ==> IsFinal(w.operators[i])
  {
    FinalMeansAllFinal(c, w);
  }

  /** Every receiver of a live router covers its rent. */
  lemma {:induction false} ClosingHasRent(c: Params, w: World)
    requires CanEnd(c, w)
    ensures w.base.Live? ==> w.baseBalance >= c.rent
    ensures forall k: E.RouterIndex :: !w.ncn[k].Allocated? && (w.ncn[k].Live? ==> w.ncnBalances[k] >= c.rent)
  {
    forall k: E.RouterIndex ensures !w.ncn[k].Allocated? && (w.ncn[k].Live? ==> w.ncnBalances[k] >= c.rent) {
      assert NcnRouterOk(c, k, w.ncn[k], w.operators[E.OperatorOf(k)], w.ncnBalances[k], w.state.ncn[k], w.grown[k]);
    }
  }

  lemma {:induction false} OneOfAKindCloses(c: Params, w: World)
    requires E.CanClose(w.state, c.epochOf, c.epochsBeforeClose, w.slot) == Ok(true) && !w.stateClosed
    ensures w.table.Live? ==>
      var r := Instruction(c, w, CloseWeightTable); r.Ok? && r.value.table.Closed? && !r.value.stateClosed
    ensures w.snapshot.Live? ==>
      var r := Instruction(c, w, CloseEpochSnapshot); r.Ok? && r.value.snapshot.Closed? && !r.value.stateClosed
    ensures w.box.Live? ==>
      var r := Instruction(c, w, CloseBallotBox); r.Ok? && r.value.box.Closed? && !r.value.stateClosed
  {
  }

  lemma {:induction false} BaseCloses(c: Params, w: World)
    requires E.CanClose(w.state, c.epochOf, c.epochsBeforeClose, w.slot) == Ok(true) && !w.stateClosed
    ensures w.base.Allocated? ==>
      var r := Instruction(c, w, ReallocBaseRouter); r.Ok? && r.value.base.Live? && !r.value.stateClosed
    ensures w.base.Live? && w.baseBalance >= c.rent ==>
      var r := Instruction(c, w, CloseBaseRouter); r.Ok? && r.value.base.Closed? && !r.value.stateClosed
  {
  }

  lemma {:induction false} OperatorCloses(c: Params, w: World, i: E.OperatorIndex)
    requires E.CanClose(w.state, c.epochOf, c.epochsBeforeClose, w.slot) == Ok(true) && !w.stateClosed
    requires w.operators[i].Live? && w.operators[i].data.ncnOperatorIndex == i
    ensures var r := Instruction(c, w, CloseOperatorSnapshot(i));
      r.Ok? && r.value.operators[i].Closed? && !r.value.stateClosed
  {
  }

  lemma {:induction false} RouterCloses(c: Params, w: World, k: E.RouterIndex)
    requires E.CanClose(w.state, c.epochOf, c.epochsBeforeClose, w.slot) == Ok(true) && !w.stateClosed
    requires w.ncn[k].Live? && w.ncnBalances[k] >= c.rent
    ensures var r := Instruction(c, w, CloseNcnRouter(k)); r.Ok? && r.value.ncn[k].Closed? && !r.value.stateClosed
  {
  }

  lemma {:induction false} SettleTable(c: Params, w: World) returns (w': World)
    requires CanEnd(c, w)
    ensures LeadsTo(c, w, w') && CanEnd(c, w') && Settled(w'.table)
  {
    ClosingHasAccounts(c, w);
    w' := w;
    LeadsToSelf(c, w);
    if w.table.Live? {
      OneOfAKindCloses(c, w);
      w' := Instruction(c, w, CloseWeightTable).value;
      LeadsToStep(c, w, CloseWeightTable);
    }
  }

  lemma {:induction false} SettleSnapshot(c: Params, w: World) returns (w': World)
    requires CanEnd(c, w)
    ensures LeadsTo(c, w, w') && CanEnd(c, w') && Settled(w'.snapshot)
  {
    ClosingHasAccounts(c, w);
    w' := w;
    LeadsToSelf(c, w);
    if w.snapshot.Live? {
      OneOfAKindCloses(c, w);
      w' := Instruction(c, w, CloseEpochSnapshot).value;
      LeadsToStep(c, w, CloseEpochSnapshot);
    }
  }

  lemma {:induction false} SettleBox(c: Params, w: World) returns (w': World)
    requires CanEnd(c, w)
    ensures LeadsTo(c, w, w') && CanEnd(c, w') && Settled(w'.box)
  {
    ClosingHasAccounts(c, w);
    w' := w;
    LeadsToSelf(c, w);
    if w.box.Live? {
      OneOfAKindCloses(c, w);
      w' := Instruction(c, w, CloseBallotBox).value;
      LeadsToStep(c, w, CloseBallotBox);
    }
  }

  /** A base router that was only allocated can still be initialized. */
  lemma {:induction false} InitializeBase(c: Params, w: World) returns (w': World)
    requires CanEnd(c, w)
    ensures LeadsTo(c, w, w') && CanEnd(c, w') && w'.base.Held()
  {
    ClosingHasAccounts(c, w);
    w' := w;
    LeadsToSelf(c, w);
    if w.base.Allocated? {
      BaseCloses(c, w);
      w' := Instruction(c, w, ReallocBaseRouter).value;
      LeadsToStep(c, w, ReallocBaseRouter);
    }
  }

  lemma {:induction false} CloseBase(c: Params, w: World) returns (w': World)
    requires CanEnd(c, w) && w.base.Held()
    ensures LeadsTo(c, w, w') && CanEnd(c, w') && Settled(w'.base)
  {
    ClosingHasAccounts(c, w);
    ClosingHasRent(c, w);
    w' := w;
    LeadsToSelf(c, w);
    if w.base.Live? {
      BaseCloses(c, w);
      w' := Instruction(c, w, CloseBaseRouter).value;
      LeadsToStep(c, w, CloseBaseRouter);
    }
  }

  lemma {:induction false} SettleBase(c: Params, w: World) returns (w': World)
    requires CanEnd(c, w)
    ensures LeadsTo(c, w, w') && CanEnd(c, w') && Settled(w'.base)
  {
    var w1 := InitializeBase(c, w);
    w' := CloseBase(c, w1);
    LeadsToTrans(c, w, w1, w');
  }

  lemma {:induction false} SettleOperator(c: Params, w: World, i: E.OperatorIndex) returns (w': World)
    requires CanEnd(c, w)
    ensures LeadsTo(c, w, w') && CanEnd(c, w') && Settled(w'.operators[i])
  {
    ClosingHasAccounts(c, w);
    w' := w;
    LeadsToSelf(c, w);
    if w.operators[i].Live? {
      ClosedOperatorStays(c, w, i);
      OperatorCloses(c, w, i);
      w' := Instruction(c, w, CloseOperatorSnapshot(i)).value;
      LeadsToStep(c, w, CloseOperatorSnapshot(i));
    }
  }

  ghost predicate OperatorsSettled(w: World, n: nat) {
    forall i: E.OperatorIndex :: i < n ==> Settled(w.operators[i])
  }

  lemma {:induction false} OneMoreOperator(c: Params, w: World, w': World, n: E.OperatorIndex)
    requires w.state.isClosing && LeadsTo(c, w, w') && OperatorsSettled(w, n) && Settled(w'.operators[n])
    ensures OperatorsSettled(w', n + 1)
  {
    StaysSettled(c, w, w');
  }

  lemma {:induction false} SettleOperators(c: Params, w: World, n: nat) returns (w': World)
    requires CanEnd(c, w) && n <= MAX_OPERATORS
    ensures LeadsTo(c, w, w') && CanEnd(c, w') && OperatorsSettled(w', n)
  {
    if n == 0 {
      w' := w;
      LeadsToSelf(c, w);
    } else {
      var w1 := SettleOperators(c, w, n - 1);
      w' := SettleOperator(c, w1, n - 1);
      LeadsToTrans(c, w, w1, w');
      OneMoreOperator(c, w1, w', n - 1);
    }
  }

  lemma {:induction false} SettleRouter(c: Params, w: World, k: E.RouterIndex) returns (w': World)
    requires CanEnd(c, w)
    ensures LeadsTo(c, w, w') && CanEnd(c, w') && Settled(w'.ncn[k])
  {
    ClosingHasAccounts(c, w);
    ClosingHasRent(c, w);
    w' := w;
    LeadsToSelf(c, w);
    if w.ncn[k].Live? {
      RouterCloses(c, w, k);
      w' := Instruction(c, w, CloseNcnRouter(k)).value;
      LeadsToStep(c, w, CloseNcnRouter(k));
    }
  }

  ghost predicate RoutersSettled(w: World, n: nat) {
    forall k: E.RouterIndex :: k < n ==> Settled(w.ncn[k])
  }

  lemma {:induction false} OneMoreRouter(c: Params, w: World, w': World, n: E.RouterIndex)
    requires w.state.isClosing && LeadsTo(c, w, w') && RoutersSettled(w, n) && Settled(w'.ncn[n])
    ensures RoutersSettled(w', n + 1)
  {
    StaysSettled(c, w, w');
  }

  lemma {:induction false} SettleRouters(c: Params, w: World, n: nat) returns (w': World)
    requires CanEnd(c, w) && n <= E.NCN_ROUTER_COUNT
    ensures LeadsTo(c, w, w') && CanEnd(c, w') && RoutersSettled(w', n)
  {
    if n == 0 {
      w' := w;
      LeadsToSelf(c, w);
    } else {
      var w1 := SettleRouters(c, w, n - 1);
      w' := SettleRouter(c, w1, n - 1);
      LeadsToTrans(c, w, w1, w');
      OneMoreRouter(c, w1, w', n - 1);
    }
  }

  ghost predicate AllSettled(w: World) {
    && Settled(w.table) && Settled(w.snapshot) && Settled(w.box) && Settled(w.base)
    && OperatorsSettled(w, MAX_OPERATORS) && RoutersSettled(w, E.NCN_ROUTER_COUNT)
  }

  /** The accounts there is one of. */
  lemma {:induction false} SettleSingles(c: Params, w: World) returns (w': World)
    requires CanEnd(c, w)
    ensures LeadsTo(c, w, w') && CanEnd(c, w') && Settled(w'.table) && Settled(w'.snapshot) && Settled(w'.box)
    ensures Settled(w'.base)
  {
    var w1 := SettleTable(c, w);
    var w2 := SettleSnapshot(c, w1);
    StaysSettled(c, w1, w2);
    LeadsToTrans(c, w, w1, w2);
    var w3 := SettleBox(c, w2);
    StaysSettled(c, w2, w3);
    LeadsToTrans(c, w, w2, w3);
    w' := SettleBase(c, w3);
    StaysSettled(c, w3, w');
    LeadsToTrans(c, w, w3, w');
  }

  lemma {:induction false} SettleAll(c: Params, w: World) returns (w': World)
    requires CanEnd(c, w)
    ensures LeadsTo(c, w, w') && CanEnd(c, w') && AllSettled(w')
  {
    var w1 := SettleSingles(c, w);
    var w2 := SettleOperators(c, w1, MAX_OPERATORS);
    StaysSettled(c, w1, w2);
    LeadsToTrans(c, w, w1, w2);
    w' := SettleRouters(c, w2, E.NCN_ROUTER_COUNT);
    StaysSettled(c, w2, w');
    LeadsToTrans(c, w, w2, w');
  }

  lemma {:induction false} SettledMeansAllClosed(c: Params, w: World)
    requires CanEnd(c, w) && AllSettled(w)
    ensures w.state.status.AllClosed()
  {
    ClosingHasAccounts(c, w);
    forall i: E.OperatorIndex ensures w.state.status.operators[i] == E.DNE || w.state.status.operators[i] == E.Closed {
      assert Settled(w.operators[i]) && Mirrors(w.operators[i], w.state.status.operators[i], E.Created);
    }
    forall k: E.RouterIndex ensures w.state.status.ncnRouters[k] == E.DNE || w.state.status.ncnRouters[k] == E.Closed {
      assert Settled(w.ncn[k]) && Mirrors(w.ncn[k], w.state.status.ncnRouters[k], E.CreatedWithReceiver);
    }
  }

  lemma {:induction false} StateCloses(c: Params, w: World)
    requires E.CanClose(w.state, c.epochOf, c.epochsBeforeClose, w.slot) == Ok(true) && !w.stateClosed
    requires w.state.status.AllClosed()
    ensures Step(c, w, CloseEpochState).stateClosed
  {
  }

  /** A closing epoch with a base router, even one that was only allocated, can be closed to its end. */
  lemma {:induction false} ClosingCanEnd(c: Params, w: World) returns (events: seq<Event>)
    requires CanEnd(c, w)
    ensures Run(c, w, events).stateClosed
  {
    var w' := SettleAll(c, w);
    ClosingHasAccounts(c, w');
    SettledMeansAllClosed(c, w');
    StateCloses(c, w');
    var before :| Run(c, w, before) == w';
    events := before + [CloseEpochState];
    RunConcat(c, w, before, [CloseEpochState]);
    RunOne(c, w', CloseEpochState);
  }

  /** Without one it never ends: the first close forbids new accounts, and the epoch state waits for a
      base router to be closed. */
  lemma {:induction false} NoBaseRouterNoEnd(c: Params, w: World, events: seq<Event>)
    requires ParamsOk(c) && Reachable(c, w) && w.state.isClosing && w.base.Absent?
    ensures !Run(c, w, events).stateClosed
  {
    ReachableInv(c, w);
    RunKeeps(c, w, events);
    RunLater(c, w, events);
  }

  ghost predicate CanBeClosed(c: Params, w: World) {
    exists events :: Run(c, w, events).stateClosed
  }

  /** How a closing epoch ends, exactly: some run closes its state if and only if the account of its
      base router was created before the first close. */
  lemma {:induction false} ClosingEndsExactly(c: Params, w: World)
    requires ParamsOk(c) && Reachable(c, w) && w.state.isClosing
    ensures CanBeClosed(c, w) <==> !w.base.Absent?
  {
    ReachableInv(c, w);
    if w.base.Absent? {
      forall events ensures !Run(c, w, events).stateClosed {
        NoBaseRouterNoEnd(c, w, events);
      }
    } else if w.stateClosed {
      assert Run(c, w, []) == w;
    } else {
      var events := ClosingCanEnd(c, w);
    }
  }
}
