/** What the accounts of an epoch hold, told from the events that were accepted. The history of a run is
    built from those events alone; at every point of every run the weight table, the snapshots and the
    counters say exactly what it says. */
module EpochRunHistory {
  import opened Common
  import opened FeesSpec
  import opened InstructionsSpec
  import opened InstructionsProofs
  import opened EpochRunSpec
  import opened EpochRunInvariants
  import opened EpochRunOperators
  import opened EpochRunClosing
  import W = WeightTableSpec
  import WeightTableProofs
  import S = EpochSnapshotSpec
  import SnapshotProofs = EpochSnapshotProofs
  import E = EpochStateSpec

  // ------------------------------------------------------------------
  // The history
  // ------------------------------------------------------------------

  /** What the weight table was made from. */
  datatype Listing = Listing(vaultCount: U64, vaults: W.VaultRegistry, mints: W.MintTable)

  /** The last weight a key was given, and the slots in which it got its first and its last. */
  datatype Weighing = Weighing(weight: U128, first: U64, last: U64)

  /** What the epoch snapshot was made with. */
  datatype Opening = Opening(fees: Fees, operatorCount: U64)

  /** What an operator's snapshot was made with, and what was delegated to it since. */
  datatype Operated = NotYet | Opened(isActive: bool, feeBps: nat, stakes: seq<Weighed>)

  type Operators = s: seq<Operated> | |s| == MAX_OPERATORS witness Filled(MAX_OPERATORS, NotYet)

  datatype History = History(
    listing: Option<Listing>,
    weights: map<Key, Weighing>,
    opening: Option<Opening>,
    operators: Operators)

  function NoHistory(): History {
    History(None, map[], None, Filled(MAX_OPERATORS, NotYet))
  }

  /** The first mint listed with a key; the table's length when there is none. */
  function FindListed(mints: seq<W.MintEntry>, key: Key, i: nat): (r: nat)
    requires i <= |mints|
    ensures i <= r <= |mints|
    ensures r < |mints| ==> mints[r].mint == key
    ensures forall j :: i <= j < r ==> mints[j].mint != key
    decreases |mints| - i
  {
    if i == |mints| || mints[i].mint == key then i else FindListed(mints, key, i + 1)
  }

  function WeightOf(h: History, key: Key): nat {
    if key in h.weights then h.weights[key].weight else 0
  }

  /** The stake of a delegation, by what was listed for its mint and the weight the mint was given last. */
  function StakeOf(h: History, d: Delegated): Weighed {
    var mints: seq<W.MintEntry> := if h.listing.Some? then h.listing.value.mints else [];
    var r := FindListed(mints, d.mint, 0);
    Weigh(d, if r < |mints| then mints[r] else W.EMPTY_MINT, WeightOf(h, d.mint))
  }

  function Delegate(o: Operated, s: Weighed): Operated {
    if o.Opened? then o.(stakes := o.stakes + [s]) else o
  }

  function Reweigh(weights: map<Key, Weighing>, mint: Key, weight: U128, slot: U64): map<Key, Weighing> {
    weights[mint := Weighing(weight, if mint in weights then weights[mint].first else slot, slot)]
  }

  /** One more accepted event. */
  function Tell(h: History, slot: U64, e: Event): History {
    match e
    case ReallocWeightTable(vaultCount, vaults, mints) => h.(listing := Some(Listing(vaultCount, vaults, mints)))
    case SetWeight(mint, weight) => h.(weights := Reweigh(h.weights, mint, weight, slot))
    case InitEpochSnapshot(fees, operatorCount) => h.(opening := Some(Opening(fees, operatorCount)))
    case ReallocOperatorSnapshot(i, isActive, feeBps) =>
      h.(operators := h.operators[i := Opened(isActive, feeBps, [])])
    case SnapshotDelegation(i, d) => h.(operators := h.operators[i := Delegate(h.operators[i], StakeOf(h, d))])
    case _ => h
  }

  function HistoryOf(c: Params, start: World, events: seq<Event>): History
    decreases |events|
  {
    if events == [] then NoHistory()
    else
      var before, e := events[..|events| - 1], events[|events| - 1];
      var w, h := Run(c, start, before), HistoryOf(c, start, before);
      if Instruction(c, w, e).Ok? then Tell(h, w.slot, e) else h
  }

  // ------------------------------------------------------------------
  // What it tells
  // ------------------------------------------------------------------

  /** An entry that keeps the mint it was made from. Only the first entry of a key is ever found, and
      it carries what the key was given. */
  ghost predicate EntryTold(e: W.WeightEntry, mints: W.MintTable, weights: map<Key, Weighing>, i: nat)
    requires i < MAX_ST_MINTS
  {
    && e.entry == mints[i]
    && if FindListed(mints, mints[i].mint, 0) == i && mints[i].mint in weights
       then e.weight == weights[mints[i].mint].weight && e.slotSet == weights[mints[i].mint].first
            && e.slotUpdated == weights[mints[i].mint].last
       else e.weight == e.slotSet == e.slotUpdated == 0
  }

  ghost predicate EntriesTold(entries: W.EntryTable, mints: W.MintTable, weights: map<Key, Weighing>) {
    forall i: nat {:trigger EntryTold(entries[i], mints, weights, i)} :: i < MAX_ST_MINTS ==>
      EntryTold(entries[i], mints, weights, i)
  }

  ghost predicate TableTold(h: History, table: Account<W.Table>) {
    && (table.Held() <==> h.listing.Some?)
    && (forall k :: k in h.weights ==> h.weights[k].first > 0)
    && if h.listing.None? then h.weights == map[]
       else && table.data.vaultCount == h.listing.value.vaultCount && table.data.vaults == h.listing.value.vaults
            && EntriesTold(table.data.entries, h.listing.value.mints, h.weights)
  }

  ghost predicate SnapshotTold(h: History, snapshot: Account<S.EpochSnapshot>) {
    && (snapshot.Held() <==> h.opening.Some?)
    && (snapshot.Held() ==>
         && Opening(snapshot.data.fees, snapshot.data.operatorCount) == h.opening.value
         && (!snapshot.data.Finalized() ==> snapshot.data.slotFinalized == 0))
  }

  /** An operator's snapshot: its fee is the one it was made with, and none while it is inactive; its
      delegations are the stakes that were accepted, in order. */
  ghost predicate OperatorTold(a: Account<S.OperatorSnapshot>, o: Operated) {
    && (a.Held() <==> o.Opened?)
    && (a.Held() ==>
         && a.data.isActive == o.isActive && a.data.feeBps == (if o.isActive then o.feeBps else 0)
         && a.data.registered == |o.stakes| <= MAX_VAULTS
         && (!a.data.Finalized() ==> a.data.slotFinalized == 0)
         && (forall j :: 0 <= j < |o.stakes| ==> Records(a.data.delegations[j], o.stakes[j])))
  }

  ghost predicate OperatorsTold(h: History, operators: OperatorAccounts) {
    forall i: E.OperatorIndex {:trigger OperatorTold(operators[i], h.operators[i])} ::
      OperatorTold(operators[i], h.operators[i])
  }

  ghost predicate Tells(h: History, w: World) {
    TableTold(h, w.table) && SnapshotTold(h, w.snapshot) && OperatorsTold(h, w.operators)
  }

  // ------------------------------------------------------------------
  // Events that tell nothing
  // ------------------------------------------------------------------

  predicate TellsSomething(e: Event) {
    || e.ReallocWeightTable? || e.SetWeight? || e.InitEpochSnapshot?
    || e.ReallocOperatorSnapshot? || e.SnapshotDelegation?
  }

  /** The same data, or none yet. */
  predicate SameData<T(==)>(a: Account<T>, a': Account<T>) {
    (a.Held() <==> a'.Held()) && (a.Held() ==> a'.data == a.data)
  }

  ghost predicate Spares(w: World, w': World) {
    && SameData(w.table, w'.table) && SameData(w.snapshot, w'.snapshot)
    && forall i: E.OperatorIndex :: SameData(w.operators[i], w'.operators[i])
  }

  lemma {:induction false} SparedIsTold(h: History, w: World, w': World)
    requires Tells(h, w) && Spares(w, w')
    ensures Tells(h, w')
  {
    forall i: E.OperatorIndex ensures OperatorTold(w'.operators[i], h.operators[i]) {
      assert OperatorTold(w.operators[i], h.operators[i]) && SameData(w.operators[i], w'.operators[i]);
    }
  }

  lemma {:induction false} BuildingSpares(c: Params, w: World, e: Event)
    requires BuildsSnapshots(e) && !TellsSomething(e) && Instruction(c, w, e).Ok?
    ensures Spares(w, Instruction(c, w, e).value)
  {
  }

  lemma {:induction false} VotingSpares(c: Params, w: World, e: Event)
    requires VotesOrOpens(e) && Instruction(c, w, e).Ok?
    ensures Spares(w, Instruction(c, w, e).value)
  {
  }

  lemma {:induction false} MovingSpares(c: Params, w: World, e: Event)
    requires MovesRewards(e) && Instruction(c, w, e).Ok?
    ensures Spares(w, Instruction(c, w, e).value)
  {
  }

  lemma {:induction false} ClosingSpares(c: Params, w: World, e: Event)
    requires Closes(e) && Instruction(c, w, e).Ok?
    ensures Spares(w, Instruction(c, w, e).value)
  {
  }

  lemma {:induction false} OthersSpare(c: Params, w: World, e: Event)
    requires !TellsSomething(e) && Instruction(c, w, e).Ok?
    ensures Spares(w, Instruction(c, w, e).value)
  {
    if BuildsSnapshots(e) {
      BuildingSpares(c, w, e);
    } else if VotesOrOpens(e) {
      VotingSpares(c, w, e);
    } else if MovesRewards(e) {
      MovingSpares(c, w, e);
    } else {
      ClosingSpares(c, w, e);
    }
  }

  // ------------------------------------------------------------------
  // Events that tell something
  // ------------------------------------------------------------------

  lemma {:induction false} ListedIsTold(h: History, w: World, vaultCount: U64, vaults: W.VaultRegistry,
                                        mints: W.MintTable)
    requires TableTold(h, w.table) && DoReallocWeightTable(w, vaultCount, vaults, mints).Ok?
    ensures TableTold(h.(listing := Some(Listing(vaultCount, vaults, mints))),
                      DoReallocWeightTable(w, vaultCount, vaults, mints).value.table)
  {
    WeightTableProofs.InitializeExactly(vaultCount, vaults, mints);
  }

  /** The entry that a key finds is the first that was listed with it. */
  lemma {:induction false} FindsListed(entries: W.EntryTable, mints: W.MintTable, weights: map<Key, Weighing>, key: Key)
    requires EntriesTold(entries, mints, weights)
    ensures W.FindMint(entries, key, 0) == FindListed(mints, key, 0)
  {
    var r, f := FindListed(mints, key, 0), W.FindMint(entries, key, 0);
    if r < MAX_ST_MINTS {
      assert EntryTold(entries[r], mints, weights, r);
    }
    if f < MAX_ST_MINTS {
      assert EntryTold(entries[f], mints, weights, f);
    }
  }

  lemma {:induction false} WeighedEntries(entries: W.EntryTable, mints: W.MintTable, weights: map<Key, Weighing>,
                                          mint: Key, weight: U128, slot: U64)
    requires EntriesTold(entries, mints, weights) && slot > 0
    requires forall k :: k in weights ==> weights[k].first > 0
    requires W.FindMint(entries, mint, 0) < MAX_ST_MINTS
    ensures var r := W.FindMint(entries, mint, 0);
      EntriesTold(entries[r := W.WithWeight(entries[r], weight, slot)], mints, Reweigh(weights, mint, weight, slot))
  {
    var r := W.FindMint(entries, mint, 0);
    FindsListed(entries, mints, weights, mint);
    var entries' := entries[r := W.WithWeight(entries[r], weight, slot)];
    forall i: nat | i < MAX_ST_MINTS ensures EntryTold(entries'[i], mints, Reweigh(weights, mint, weight, slot), i) {
      assert EntryTold(entries[i], mints, weights, i);
    }
  }

  lemma {:induction false} WeightIsTold(h: History, w: World, mint: Key, weight: U128)
    requires TableTold(h, w.table) && w.slot > 0 && DoSetWeight(w, mint, weight).Ok?
    ensures TableTold(h.(weights := Reweigh(h.weights, mint, weight, w.slot)), DoSetWeight(w, mint, weight).value.table)
  {
    WeighedEntries(w.table.data.entries, h.listing.value.mints, h.weights, mint, weight, w.slot);
  }

  /** A delegation is weighed by what was told of its mint. */
  lemma {:induction false} StakeIsTold(h: History, t: W.Table, d: Delegated)
    requires TableTold(h, Live(t)) && DelegationOf(t, d).Ok?
    ensures Records(DelegationOf(t, d).value, StakeOf(h, d))
  {
    var mints := h.listing.value.mints;
    FindsListed(t.entries, mints, h.weights, d.mint);
    var r := FindListed(mints, d.mint, 0);
    assert EntryTold(t.entries[r], mints, h.weights, r);
    DelegationExactly(t, d, r);
  }

  /** And written behind the delegations before it. */
  lemma {:induction false} StakeIsAppended(w: World, i: E.OperatorIndex, d: Delegated)
    requires DoSnapshotDelegation(w, i, d).Ok? && SnapshotProofs.OperatorOk(w.operators[i].data)
    ensures w.table.Live? && w.snapshot.Live? && w.operators[i].Live? && DelegationOf(w.table.data, d).Ok?
    ensures var w', o := DoSnapshotDelegation(w, i, d).value, w.operators[i].data;
      && w'.table == w.table && w'.snapshot.Live? && w'.operators == w.operators[i := w'.operators[i]]
      && w'.operators[i].Live?
      && var o' := w'.operators[i].data;
      && o.registered < MAX_VAULTS && o'.registered == o.registered + 1
      && o'.delegations == o.delegations[o.registered := DelegationOf(w.table.data, d).value]
      && o'.isActive == o.isActive && o'.feeBps == o.feeBps
      && !o.Finalized() && (!o'.Finalized() ==> o'.slotFinalized == o.slotFinalized)
  {
    SnapshotProofs.RegisteredState(w.operators[i].data, w.slot, DelegationOf(w.table.data, d).value);
  }

  lemma {:induction false} AppendedIsTold(a: Account<S.OperatorSnapshot>, a': Account<S.OperatorSnapshot>, o: Operated,
                                          d: S.Delegation, s: Weighed)
    requires OperatorTold(a, o) && a.Held() && a'.Held() && a.data.registered < MAX_VAULTS && Records(d, s)
    requires a'.data.registered == a.data.registered + 1
    requires a'.data.delegations == a.data.delegations[a.data.registered := d]
    requires a'.data.isActive == a.data.isActive && a'.data.feeBps == a.data.feeBps
    requires !a'.data.Finalized() ==> !a.data.Finalized() && a'.data.slotFinalized == a.data.slotFinalized
    ensures OperatorTold(a', Delegate(o, s))
  {
  }

  lemma {:induction false} OneOperatorTold(h: History, operators: OperatorAccounts, i: E.OperatorIndex,
                                           a: Account<S.OperatorSnapshot>, o: Operated)
    requires OperatorsTold(h, operators) && OperatorTold(a, o)
    ensures OperatorsTold(h.(operators := h.operators[i := o]), operators[i := a])
  {
    var h' := h.(operators := h.operators[i := o]);
    forall j: E.OperatorIndex ensures OperatorTold(operators[i := a][j], h'.operators[j]) {
      assert OperatorTold(operators[j], h.operators[j]);
    }
  }

  /** What a delegation does to the epoch snapshot leaves what it was made with. */
  lemma {:induction false} DelegationKeepsOpening(w: World, i: E.OperatorIndex, d: Delegated)
    requires DoSnapshotDelegation(w, i, d).Ok?
    ensures w.snapshot.Live? && DoSnapshotDelegation(w, i, d).value.snapshot.Live?
    ensures var snapshot' := DoSnapshotDelegation(w, i, d).value.snapshot.data;
      && snapshot'.fees == w.snapshot.data.fees && snapshot'.operatorCount == w.snapshot.data.operatorCount
      && (!snapshot'.Finalized() ==>
           !w.snapshot.data.Finalized() && snapshot'.slotFinalized == w.snapshot.data.slotFinalized)
  {
  }

  lemma {:induction false} DelegationIsTold(h: History, w: World, i: E.OperatorIndex, d: Delegated)
    requires Tells(h, w) && DoSnapshotDelegation(w, i, d).Ok? && SnapshotProofs.OperatorOk(w.operators[i].data)
    ensures Tells(h.(operators := h.operators[i := Delegate(h.operators[i], StakeOf(h, d))]),
                  DoSnapshotDelegation(w, i, d).value)
  {
    StakeIsAppended(w, i, d);
    DelegationKeepsOpening(w, i, d);
    StakeIsTold(h, w.table.data, d);
    var w' := DoSnapshotDelegation(w, i, d).value;
    assert OperatorTold(w.operators[i], h.operators[i]);
    AppendedIsTold(w.operators[i], w'.operators[i], h.operators[i], DelegationOf(w.table.data, d).value, StakeOf(h, d));
    OneOperatorTold(h, w.operators, i, w'.operators[i], Delegate(h.operators[i], StakeOf(h, d)));
  }

  lemma {:induction false} OperatorIsTold(c: Params, h: History, w: World, i: E.OperatorIndex, isActive: bool,
                                          feeBps: Bps)
    requires Tells(h, w) && DoReallocOperator(c, w, i, isActive, feeBps).Ok?
    ensures Tells(h.(operators := h.operators[i := Opened(isActive, feeBps, [])]),
                  DoReallocOperator(c, w, i, isActive, feeBps).value)
  {
    var w' := DoReallocOperator(c, w, i, isActive, feeBps).value;
    SnapshotProofs.InitOperatorExactly(c.operators[i], i, isActive, feeBps, w.snapshot.data.vaultCount, w.slot);
    OneOperatorTold(h, w.operators, i, w'.operators[i], Opened(isActive, feeBps, []));
  }

  lemma {:induction false} TablesAreTold(c: Params, h: History, w: World, e: Event)
    requires Tells(h, w) && w.slot > 0 && (e.ReallocWeightTable? || e.SetWeight? || e.InitEpochSnapshot?)
    requires Instruction(c, w, e).Ok?
    ensures Tells(Tell(h, w.slot, e), Instruction(c, w, e).value)
  {
    match e
    case ReallocWeightTable(vaultCount, vaults, mints) => ListedIsTold(h, w, vaultCount, vaults, mints);
    case SetWeight(mint, weight) => WeightIsTold(h, w, mint, weight);
    case InitEpochSnapshot(fees, operatorCount) =>
  }

  lemma {:induction false} OperatorsAreTold(c: Params, h: History, w: World, e: Event)
    requires Inv(c, w) && Tells(h, w) && (e.ReallocOperatorSnapshot? || e.SnapshotDelegation?)
    requires Instruction(c, w, e).Ok?
    ensures Tells(Tell(h, w.slot, e), Instruction(c, w, e).value)
  {
    if e.SnapshotDelegation? {
      assert OperatorAccountOk(c, e.operator, w.operators[e.operator], w.state.operators[e.operator],
                               OperatorCount(w.snapshot), VaultCount(w.snapshot));
      DelegationIsTold(h, w, e.operator, e.delegated);
    } else {
      OperatorIsTold(c, h, w, e.operator, e.isActive, e.feeBps);
    }
  }

  lemma {:induction false} StepIsTold(c: Params, h: History, w: World, e: Event)
    requires ParamsOk(c) && Inv(c, w) && Tells(h, w) && Instruction(c, w, e).Ok?
    ensures Tells(Tell(h, w.slot, e), Instruction(c, w, e).value)
  {
    if e.ReallocOperatorSnapshot? || e.SnapshotDelegation? {
      OperatorsAreTold(c, h, w, e);
    } else if TellsSomething(e) {
      TablesAreTold(c, h, w, e);
    } else {
      OthersSpare(c, w, e);
      SparedIsTold(h, w, Instruction(c, w, e).value);
    }
  }

  lemma {:induction false} NothingIsTold(slot: U64)
    ensures Tells(NoHistory(), Start(slot))
  {
  }

  /** At every point of every run the weight table holds what was listed and the weights that were
      accepted last, the epoch snapshot the fees and the count it was made with, and every operator's
      snapshot the fee it was made with and exactly the stakes that were delegated to it, each weighed
      by what had been told of its mint. */
  lemma {:induction false} RunIsTold(c: Params, slot: U64, events: seq<Event>)
    requires ParamsOk(c) && 0 < slot < E.NO_CONSENSUS
    ensures Tells(HistoryOf(c, Start(slot), events), Run(c, Start(slot), events))
    decreases |events|
  {
    if events == [] {
      NothingIsTold(slot);
    } else {
      var before, e := events[..|events| - 1], events[|events| - 1];
      var w := Run(c, Start(slot), before);
      RunIsTold(c, slot, before);
      StartInv(c, slot);
      RunKeeps(c, Start(slot), before);
      if Instruction(c, w, e).Ok? {
        StepIsTold(c, HistoryOf(c, Start(slot), before), w, e);
      }
    }
  }
}
