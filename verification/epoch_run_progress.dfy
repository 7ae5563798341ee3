/** How the states of a run are ordered: accounts only move forward, what is final stays as it is, a
    winner stays the winner, and the phases of the epoch never go back. */
module EpochRunProgress {
  import opened Common
  import opened InstructionsSpec
  import opened EpochRunSpec
  import opened EpochRunInvariants
  import opened EpochRunOperators
  import opened EpochRunVotes
  import opened EpochRunClosing
  import W = WeightTableSpec
  import S = EpochSnapshotSpec
  import B = BallotBoxSpec
  import Consensus
  import Ncn = NcnRewardRouterSpec
  import E = EpochStateSpec

  /** Absent, allocated, live, closed: never back, and a closed account is never touched again. While
      the epoch is closing, nothing new appears. */
  ghost predicate Forward<T(!new)>(a: Account<T>, a': Account<T>, closing: bool) {
    match a
    case Absent => closing ==> a'.Absent?
    case Allocated => !a'.Absent?
    case Live(_) => a'.Held()
    case Closed(_) => a' == a
  }

  /** What a declared winner holds. */
  function WinnerWeight(box: B.Box): nat {
    var t := Consensus.WinnerSlot(box);
    if t < |box.tallies| then box.tallies[t].weights.total else 0
  }

  ghost predicate KeepsWinner(box: B.Box, box': B.Box) {
    && box'.winning == box.winning && box'.slotConsensus == box.slotConsensus
    && WinnerWeight(box') >= WinnerWeight(box)
  }

  ghost predicate TableLater(table: Account<W.Table>, table': Account<W.Table>, closing: bool) {
    && Forward(table, table', closing)
    && (table.Held() && table.data.Finalized() ==> table'.Held() && table'.data == table.data)
  }

  ghost predicate SnapshotLater(snapshot: Account<S.EpochSnapshot>, snapshot': Account<S.EpochSnapshot>,
                                closing: bool) {
    && Forward(snapshot, snapshot', closing)
    && (snapshot.Held() && snapshot.data.Finalized() ==> snapshot'.Held() && snapshot'.data == snapshot.data)
  }

  ghost predicate OperatorsLater(operators: OperatorAccounts, operators': OperatorAccounts, closing: bool) {
    forall i: E.OperatorIndex ::
      && Forward(operators[i], operators'[i], closing)
      && (IsFinal(operators[i]) ==> operators'[i].Held() && operators'[i].data == operators[i].data)
  }

  ghost predicate BoxLater(box: Account<B.Box>, box': Account<B.Box>, closing: bool) {
    && Forward(box, box', closing)
    && (box.Held() && box.data.IsConsensusReached() ==> box'.Held() && KeepsWinner(box.data, box'.data))
  }

  ghost predicate RoutersLater(ncn: RouterAccounts, ncn': RouterAccounts, closing: bool) {
    forall k: E.RouterIndex :: Forward(ncn[k], ncn'[k], closing)
  }

  ghost predicate StateLater(state: E.State, state': E.State) {
    && (state.IsConsensusReached() ==> state'.slotConsensus == state.slotConsensus)
    && (state.isClosing ==> state'.isClosing)
  }

  ghost predicate Later(w: World, w': World) {
    && w.slot <= w'.slot
    && TableLater(w.table, w'.table, w.state.isClosing)
    && SnapshotLater(w.snapshot, w'.snapshot, w.state.isClosing)
    && OperatorsLater(w.operators, w'.operators, w.state.isClosing)
    && BoxLater(w.box, w'.box, w.state.isClosing)
    && Forward(w.base, w'.base, w.state.isClosing)
    && RoutersLater(w.ncn, w'.ncn, w.state.isClosing)
    && StateLater(w.state, w'.state)
    && (w.stateClosed ==> w'.stateClosed)
  }

  lemma {:induction false} LaterTrans(w: World, w1: World, w2: World)
    requires Later(w, w1) && Later(w1, w2)
    ensures Later(w, w2)
  {
    OperatorsTrans(w.operators, w1.operators, w2.operators, w.state.isClosing, w1.state.isClosing);
    RoutersTrans(w.ncn, w1.ncn, w2.ncn, w.state.isClosing, w1.state.isClosing);
  }

  lemma {:induction false} OperatorsTrans(a: OperatorAccounts, b: OperatorAccounts, d: OperatorAccounts, closing: bool,
                                          closing': bool)
    requires OperatorsLater(a, b, closing) && OperatorsLater(b, d, closing') && (closing ==> closing')
    ensures OperatorsLater(a, d, closing)
  {
    forall i: E.OperatorIndex
      ensures Forward(a[i], d[i], closing) && (IsFinal(a[i]) ==> d[i].Held() && d[i].data == a[i].data)
    {
      assert Forward(a[i], b[i], closing) && Forward(b[i], d[i], closing');
      assert IsFinal(a[i]) ==> IsFinal(b[i]);
    }
  }

  lemma {:induction false} RoutersTrans(a: RouterAccounts, b: RouterAccounts, d: RouterAccounts, closing: bool,
                                        closing': bool)
    requires RoutersLater(a, b, closing) && RoutersLater(b, d, closing') && (closing ==> closing')
    ensures RoutersLater(a, d, closing)
  {
    forall k: E.RouterIndex ensures Forward(a[k], d[k], closing) {
      assert Forward(a[k], b[k], closing) && Forward(b[k], d[k], closing');
    }
  }

  // ------------------------------------------------------------------
  // One step
  // ------------------------------------------------------------------

  lemma {:induction false} OneOperatorLater(operators: OperatorAccounts, i: E.OperatorIndex,
                                            a: Account<S.OperatorSnapshot>, closing: bool)
    requires Forward(operators[i], a, closing)
    requires IsFinal(operators[i]) ==> a.Held() && a.data == operators[i].data
    ensures OperatorsLater(operators, operators[i := a], closing)
  {
  }

  lemma {:induction false} OneRouterLater(ncn: RouterAccounts, k: E.RouterIndex, a: Account<Ncn.Router>, closing: bool)
    requires Forward(ncn[k], a, closing)
    ensures RoutersLater(ncn, ncn[k := a], closing)
  {
  }

  lemma {:induction false} ReallocOperatorLater(c: Params, w: World, i: E.OperatorIndex, isActive: bool, feeBps: Bps)
    requires w.snapshot.Live? && !w.snapshot.data.Finalized() && DoReallocOperator(c, w, i, isActive, feeBps).Ok?
    ensures Later(w, DoReallocOperator(c, w, i, isActive, feeBps).value)
  {
    OneOperatorLater(w.operators, i, DoReallocOperator(c, w, i, isActive, feeBps).value.operators[i],
                     w.state.isClosing);
  }

  lemma {:induction false} SnapshotDelegationLater(w: World, i: E.OperatorIndex, d: Delegated)
    requires w.snapshot.Live? && !w.snapshot.data.Finalized() && DoSnapshotDelegation(w, i, d).Ok?
    ensures Later(w, DoSnapshotDelegation(w, i, d).value)
  {
    OneOperatorLater(w.operators, i, DoSnapshotDelegation(w, i, d).value.operators[i], w.state.isClosing);
  }

  lemma {:induction false} WeightsLater(c: Params, w: World, e: Event)
    requires (e.Tick? || e.InitWeightTable? || e.ReallocWeightTable? || e.SetWeight?) && Instruction(c, w, e).Ok?
    ensures Later(w, Instruction(c, w, e).value)
  {
  }

  lemma {:induction false} OpensSnapshotsLater(c: Params, w: World, e: Event)
    requires (e.InitEpochSnapshot? || e.InitOperatorSnapshot?) && Instruction(c, w, e).Ok?
    ensures Later(w, Instruction(c, w, e).value)
  {
    if e.InitOperatorSnapshot? {
      OneOperatorLater(w.operators, e.operator, Allocated, w.state.isClosing);
    }
  }

  lemma {:induction false} BuildsSnapshotsLater(c: Params, w: World, e: Event)
    requires ParamsOk(c) && Inv(c, w) && BuildsSnapshots(e) && Instruction(c, w, e).Ok?
    ensures Later(w, Instruction(c, w, e).value)
  {
    if e.ReallocOperatorSnapshot? {
      OpenOperatorMeansNoVotes(c, w, e.operator);
      ReallocOperatorLater(c, w, e.operator, e.isActive, e.feeBps);
    } else if e.SnapshotDelegation? {
      OpenOperatorMeansNoVotes(c, w, e.operator);
      SnapshotDelegationLater(w, e.operator, e.delegated);
    } else if e.InitEpochSnapshot? || e.InitOperatorSnapshot? {
      OpensSnapshotsLater(c, w, e);
    } else {
      WeightsLater(c, w, e);
    }
  }

  lemma {:induction false} VoteKeepsWinner(c: Params, w: World, i: E.OperatorIndex, root: Digest) returns (box': B.Box)
    requires ParamsOk(c) && Inv(c, w) && DoCastVote(c, w, i, root).Ok?
    ensures w.box.Live? && (w.box.data.IsConsensusReached() ==> KeepsWinner(w.box.data, box'))
    ensures DoCastVote(c, w, i, root).value
         == w.(box := Live(box'), state := E.CastVote(w.state, box'.operatorsVoted, box'.IsConsensusReached(), w.slot))
  {
    box' := VoteInRun(c, w, i, root);
    Consensus.VoteKeeps(w.box.data, c.threshold, w.snapshot.data.weights.total, c.operators[i], B.NewBallot(root),
                        w.operators[i].data.weights, w.slot, c.validSlots);
  }

  lemma {:induction false} CastVoteLater(c: Params, w: World, i: E.OperatorIndex, root: Digest)
    requires ParamsOk(c) && Inv(c, w) && DoCastVote(c, w, i, root).Ok?
    ensures Later(w, DoCastVote(c, w, i, root).value)
  {
    var box' := VoteKeepsWinner(c, w, i, root);
  }

  lemma {:induction false} SetTieBreakerLater(c: Params, w: World, root: Digest)
    requires ParamsOk(c) && Inv(c, w) && DoSetTieBreaker(c, w, root).Ok?
    ensures Later(w, DoSetTieBreaker(c, w, root).value)
  {
    var box' := TieBreakInRun(c, w, root);
  }

  lemma {:induction false} OpensAccountsLater(c: Params, w: World, e: Event)
    requires e.InitBallotBox? || e.ReallocBallotBox? || e.InitBaseRouter? || e.ReallocBaseRouter?
    requires Instruction(c, w, e).Ok?
    ensures Later(w, Instruction(c, w, e).value)
  {
  }

  lemma {:induction false} FillsReceiversLater(c: Params, w: World, e: Event)
    requires e.InitNcnRouter? || e.DepositBase? || e.DepositNcn?
    requires Instruction(c, w, e).Ok?
    ensures Later(w, Instruction(c, w, e).value)
  {
    if e.InitNcnRouter? {
      OneRouterLater(w.ncn, e.router, Instruction(c, w, e).value.ncn[e.router], w.state.isClosing);
    }
  }

  lemma {:induction false} VotesOrOpensLater(c: Params, w: World, e: Event)
    requires ParamsOk(c) && Inv(c, w) && VotesOrOpens(e) && Instruction(c, w, e).Ok?
    ensures Later(w, Instruction(c, w, e).value)
  {
    if e.CastVote? {
      CastVoteLater(c, w, e.operator, e.root);
    } else if e.SetTieBreaker? {
      SetTieBreakerLater(c, w, e.root);
    } else if e.InitNcnRouter? || e.DepositBase? || e.DepositNcn? {
      FillsReceiversLater(c, w, e);
    } else {
      OpensAccountsLater(c, w, e);
    }
  }

  lemma {:induction false} MovesBaseLater(c: Params, w: World, e: Event)
    requires (e.RouteBase? || e.DistributeBase? || e.DistributeBaseNcn?) && Instruction(c, w, e).Ok?
    ensures Later(w, Instruction(c, w, e).value)
  {
  }

  lemma {:induction false} MovesNcnLater(c: Params, w: World, e: Event)
    requires (e.RouteNcn? || e.DistributeNcnOperator? || e.DistributeNcnVault?) && Instruction(c, w, e).Ok?
    ensures Later(w, Instruction(c, w, e).value)
  {
    OneRouterLater(w.ncn, e.router, Instruction(c, w, e).value.ncn[e.router], w.state.isClosing);
  }

  lemma {:induction false} ClosesOneLater(c: Params, w: World, e: Event)
    requires
      || e.CloseWeightTable? || e.CloseEpochSnapshot? || e.CloseBallotBox?
      || e.CloseBaseRouter? || e.CloseEpochState?
    requires Instruction(c, w, e).Ok?
    ensures Later(w, Instruction(c, w, e).value)
  {
  }

  lemma {:induction false} ClosesOfManyLater(c: Params, w: World, e: Event)
    requires (e.CloseOperatorSnapshot? || e.CloseNcnRouter?) && Instruction(c, w, e).Ok?
    ensures Later(w, Instruction(c, w, e).value)
  {
    var w' := Instruction(c, w, e).value;
    if e.CloseOperatorSnapshot? {
      OneOperatorLater(w.operators, e.operator, w'.operators[e.operator], w.state.isClosing);
    } else {
      OneRouterLater(w.ncn, e.router, w'.ncn[e.router], w.state.isClosing);
    }
  }

  lemma {:induction false} LaterRefl(w: World)
    ensures Later(w, w)
  {
  }

  lemma {:induction false} StepLater(c: Params, w: World, e: Event)
    requires ParamsOk(c) && Inv(c, w)
    ensures Later(w, Step(c, w, e))
  {
    if Instruction(c, w, e).Err? {
      LaterRefl(w);
    } else if BuildsSnapshots(e) {
      BuildsSnapshotsLater(c, w, e);
    } else if VotesOrOpens(e) {
      VotesOrOpensLater(c, w, e);
    } else if e.RouteBase? || e.DistributeBase? || e.DistributeBaseNcn? {
      MovesBaseLater(c, w, e);
    } else if MovesRewards(e) {
      MovesNcnLater(c, w, e);
    } else if e.CloseOperatorSnapshot? || e.CloseNcnRouter? {
      ClosesOfManyLater(c, w, e);
    } else {
      ClosesOneLater(c, w, e);
    }
  }

  /** Over any run from any state of an epoch. */
  lemma {:induction false} RunLater(c: Params, w: World, events: seq<Event>)
    requires ParamsOk(c) && Inv(c, w)
    ensures Later(w, Run(c, w, events))
    decreases |events|
  {
    if events == [] {
      LaterRefl(w);
    } else {
      var w1 := Run(c, w, events[..|events| - 1]);
      RunLater(c, w, events[..|events| - 1]);
      RunKeeps(c, w, events[..|events| - 1]);
      StepLater(c, w1, events[|events| - 1]);
      LaterTrans(w, w1, Run(c, w, events));
    }
  }
}
