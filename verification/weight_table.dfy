/** The weight table of an epoch: which mints count, and how much (core/src/weight_table.rs). */
module WeightTableSpec {
  import opened Common
  import opened Sums
  import opened FeesSpec

  datatype MintEntry = MintEntry(mint: Key, group: Group, multiplierBps: U64)

  datatype WeightEntry = WeightEntry(entry: MintEntry, weight: U128, slotSet: U64, slotUpdated: U64) {
    predicate IsEmpty() {
      entry.mint == DEFAULT_KEY
    }

    predicate IsSet() {
      slotSet > 0
    }
  }

  const EMPTY_MINT := MintEntry(DEFAULT_KEY, 0, 0)
  const EMPTY_ENTRY := WeightEntry(EMPTY_MINT, 0, 0, 0)
  const EMPTY_VAULT_INDEX: U64 := U64_MAX

  type MintTable = s: seq<MintEntry> | |s| == MAX_ST_MINTS witness Filled(MAX_ST_MINTS, EMPTY_MINT)
  type EntryTable = s: seq<WeightEntry> | |s| == MAX_ST_MINTS witness Filled(MAX_ST_MINTS, EMPTY_ENTRY)
  type VaultRegistry = s: seq<U64> | |s| == MAX_VAULTS witness Filled(MAX_VAULTS, EMPTY_VAULT_INDEX)

  function MintFlags(entries: seq<WeightEntry>): (r: seq<nat>)
    ensures |r| == |entries|
  {
    seq(|entries|, i requires 0 <= i < |entries| => if entries[i].IsEmpty() then 0 else 1)
  }

  function WeightFlags(entries: seq<WeightEntry>): (r: seq<nat>)
    ensures |r| == |entries|
  {
    seq(|entries|, i requires 0 <= i < |entries| => if entries[i].IsSet() then 1 else 0)
  }

  function VaultFlags(vaults: seq<U64>): (r: seq<nat>)
    ensures |r| == |vaults|
  {
    seq(|vaults|, i requires 0 <= i < |vaults| => if vaults[i] == EMPTY_VAULT_INDEX then 0 else 1)
  }

  datatype Table = Table(vaultCount: U64, vaults: VaultRegistry, entries: EntryTable) {
    function MintCount(): nat {
      Sum(MintFlags(entries))
    }

    function WeightCount(): nat {
      Sum(WeightFlags(entries))
    }

    predicate RegistryInitialized() {
      vaultCount == Sum(VaultFlags(vaults))
    }

    predicate TableInitialized() {
      MintCount() > 0
    }

    predicate Finalized() {
      RegistryInitialized() && TableInitialized() && MintCount() == WeightCount()
    }

    /** `check_registry_for_vault`. */
    predicate Registers(vaultIndex: U64) {
      vaultIndex != EMPTY_VAULT_INDEX && vaultIndex in vaults
    }
  }

  function NewEntry(m: MintEntry): WeightEntry {
    WeightEntry(m, 0, 0, 0)
  }

  function NewEntries(mints: MintTable): (r: EntryTable)
    ensures forall i :: 0 <= i < MAX_ST_MINTS ==> r[i] == NewEntry(mints[i])
  {
    seq(MAX_ST_MINTS, i requires 0 <= i < MAX_ST_MINTS => NewEntry(mints[i]))
  }

  /** `initialize`. An empty registry looks as if it had been filled before. */
  function Initialize(vaultCount: U64, vaults: VaultRegistry, mints: MintTable): Result<Table> {
    var t := Table(vaultCount, vaults, NewEntries(mints));
    if vaultCount == 0 then Err(WeightTableAlreadyInitialized)
    else if !t.RegistryInitialized() then Err(RegistryNotInitialized)
    else if !t.TableInitialized() then Err(TableNotInitialized)
    else Ok(t)
  }

  function FindMint(entries: seq<WeightEntry>, mint: Key, i: nat): (r: nat)
    requires i <= |entries|
    ensures i <= r <= |entries|
    ensures r < |entries| ==> entries[r].entry.mint == mint
    ensures forall j :: i <= j < r ==> entries[j].entry.mint != mint
    decreases |entries| - i
  {
    if i == |entries| || entries[i].entry.mint == mint then i else FindMint(entries, mint, i + 1)
  }

  /** An entry remembers the slot of its first weight. */
  function WithWeight(e: WeightEntry, weight: U128, slot: U64): WeightEntry {
    e.(weight := weight, slotSet := if e.slotSet == 0 then slot else e.slotSet, slotUpdated := slot)
  }

  function SetWeight(t: Table, mint: Key, weight: U128, slot: U64): Result<Table> {
    var i := FindMint(t.entries, mint, 0);
    if i == |t.entries| then Err(InvalidMint)
    else Ok(t.(entries := t.entries[i := WithWeight(t.entries[i], weight, slot)]))
  }

  function GetEntry(t: Table, mint: Key): Result<WeightEntry> {
    var i := FindMint(t.entries, mint, 0);
    if i == |t.entries| then Err(InvalidMint) else Ok(t.entries[i])
  }
}

module WeightTableProofs {
  import opened Common
  import opened Sums
  import opened WeightTableSpec

  /** Only listed mints carry weights. */
  ghost predicate TableOk(t: Table) {
    && t.RegistryInitialized() && t.TableInitialized() && t.vaultCount > 0
    && forall i :: 0 <= i < |t.entries| && t.entries[i].IsSet() ==> !t.entries[i].IsEmpty()
  }

  lemma {:induction false} InitializeOk(vaultCount: U64, vaults: VaultRegistry, mints: MintTable)
    requires Initialize(vaultCount, vaults, mints).Ok?
    ensures var t := Initialize(vaultCount, vaults, mints).value; TableOk(t) && t.WeightCount() == 0 && !t.Finalized()
  {
    SumZero(WeightFlags(NewEntries(mints)));
  }

  /** The slots of a registry that hold a vault. */
  function Vaults(vaults: seq<U64>): set<nat> {
    set i: nat | i < |vaults| && vaults[i] != U64_MAX
  }

  lemma {:induction false} VaultsCounted(vaults: seq<U64>)
    ensures Sum(VaultFlags(vaults)) == |Vaults(vaults)|
  {
    SumCountsFlags(VaultFlags(vaults));
    assert Vaults(vaults) == set i | 0 <= i < |vaults| && VaultFlags(vaults)[i] == 1;
  }

  /** The table copies what the vault registry lists, mint for mint and vault for vault, with no weight
      yet; and it can be made exactly when the count is that of the vaults and not zero, and at least
      one mint is listed. */
  lemma {:induction false} InitializeExactly(vaultCount: U64, vaults: VaultRegistry, mints: MintTable)
    ensures Initialize(vaultCount, vaults, mints).Ok? <==>
      && 0 < vaultCount == |Vaults(vaults)|
      && exists i :: 0 <= i < MAX_ST_MINTS && mints[i].mint != DEFAULT_KEY
    ensures Initialize(vaultCount, vaults, mints).Ok? ==>
      var t := Initialize(vaultCount, vaults, mints).value;
      && t.vaultCount == vaultCount && t.vaults == vaults
      && forall i :: 0 <= i < MAX_ST_MINTS ==>
         && t.entries[i].entry == mints[i]
         && t.entries[i].weight == t.entries[i].slotSet == t.entries[i].slotUpdated == 0
  {
    VaultsCounted(vaults);
    SumZero(MintFlags(NewEntries(mints)));
    assert forall i :: 0 <= i < MAX_ST_MINTS ==>
      MintFlags(NewEntries(mints))[i] == if mints[i].mint != DEFAULT_KEY then 1 else 0;
  }

  lemma {:induction false} WeightsWithinMints(t: Table)
    requires TableOk(t)
    ensures t.WeightCount() <= t.MintCount() <= MAX_ST_MINTS
  {
    SumMonotone(WeightFlags(t.entries), MintFlags(t.entries));
    SumOfFlags(MintFlags(t.entries));
  }

  /** The table is final exactly when every listed mint has a weight. */
  lemma {:induction false} FinalizedExactly(t: Table)
    requires TableOk(t)
    ensures t.Finalized() <==> forall i :: 0 <= i < |t.entries| && !t.entries[i].IsEmpty() ==> t.entries[i].IsSet()
  {
    if i :| 0 <= i < |t.entries| && !t.entries[i].IsEmpty() && !t.entries[i].IsSet() {
      SumStrict(WeightFlags(t.entries), MintFlags(t.entries), i);
    } else {
      assert WeightFlags(t.entries) == MintFlags(t.entries);
    }
  }

  lemma {:induction false} FindMintIs(entries: seq<WeightEntry>, mint: Key, r: nat)
    requires r < |entries| && entries[r].entry.mint == mint && forall j :: 0 <= j < r ==> entries[j].entry.mint != mint
    ensures FindMint(entries, mint, 0) == r
  {
  }

  /** A weight can be set exactly for a key that is in the table, mint or not. */
  lemma {:induction false} SetWeightExactly(t: Table, mint: Key, weight: U128, slot: U64)
    ensures SetWeight(t, mint, weight, slot).Ok?
       <==> exists i :: 0 <= i < MAX_ST_MINTS && t.entries[i].entry.mint == mint
  {
  }

  /** Setting a weight, under whatever key, is read back and leaves every other key's entry alone. The
      entry counts once, however often it is set. */
  lemma {:induction false} SetWeightKeeps(t: Table, mint: Key, weight: U128, slot: U64)
    requires slot > 0 && SetWeight(t, mint, weight, slot).Ok?
    ensures var t' := SetWeight(t, mint, weight, slot).value;
      && t' == t.(entries := t'.entries)
      && t'.MintCount() == t.MintCount()
      && t'.WeightCount() == t.WeightCount() + (if GetEntry(t, mint).value.IsSet() then 0 else 1)
      && GetEntry(t, mint).Ok? && GetEntry(t', mint).Ok?
      && (var e, e' := GetEntry(t, mint).value, GetEntry(t', mint).value;
          && e'.entry == e.entry && e'.weight == weight && e'.slotUpdated == slot
          && e'.slotSet == (if e.slotSet == 0 then slot else e.slotSet))
      && forall k :: k != mint ==> GetEntry(t', k) == GetEntry(t, k)
  {
    var i := FindMint(t.entries, mint, 0);
    var t' := SetWeight(t, mint, weight, slot).value;
    assert MintFlags(t'.entries) == MintFlags(t.entries);
    assert WeightFlags(t'.entries) == WeightFlags(t.entries)[i := 1];
    SumUpdate(WeightFlags(t.entries), i, 1);
    FindMintIs(t'.entries, mint, i);
    forall k | k != mint ensures GetEntry(t', k) == GetEntry(t, k) {
      var r := FindMint(t.entries, k, 0);
      if r < |t.entries| {
        FindMintIs(t'.entries, k, r);
      } else {
        assert forall j :: 0 <= j < |t.entries| ==> t'.entries[j].entry.mint == t.entries[j].entry.mint;
      }
    }
  }

  // ------------------------------------------------------------------
  // The default mint
  // ------------------------------------------------------------------

  /** The default key is no mint, and the instruction does not refuse it: it finds the first empty
      entry. Setting a weight keeps weights on listed mints exactly when it is not for that key. */
  lemma {:induction false} DefaultMintExactly(t: Table, mint: Key, weight: U128, slot: U64)
    requires TableOk(t) && slot > 0 && SetWeight(t, mint, weight, slot).Ok?
    ensures TableOk(SetWeight(t, mint, weight, slot).value) <==> mint != DEFAULT_KEY
  {
    var i := FindMint(t.entries, mint, 0);
    var t' := SetWeight(t, mint, weight, slot).value;
    SetWeightKeeps(t, mint, weight, slot);
    assert t'.entries[i].IsSet() && (t'.entries[i].IsEmpty() <==> mint == DEFAULT_KEY);
  }

  /** One weight to set: for which key, how much, and in which slot. */
  datatype Setting = Setting(mint: Key, weight: U128, slot: U64)

  /** The instruction on the table: a final table, and a key that is not found, change nothing. */
  function Apply(t: Table, s: Setting): Table {
    var r := SetWeight(t, s.mint, s.weight, s.slot);
    if t.Finalized() || r.Err? then t else r.value
  }

  function ApplyAll(t: Table, settings: seq<Setting>): Table {
    if settings == [] then t else Apply(ApplyAll(t, settings[..|settings| - 1]), settings[|settings| - 1])
  }

  predicate Accepts(t: Table, s: Setting) {
    !t.Finalized() && SetWeight(t, s.mint, s.weight, s.slot).Ok?
  }

  /** Some weight for the default key was accepted on the way. */
  predicate AcceptedDefault(t: Table, settings: seq<Setting>) {
    && settings != []
    && (AcceptedDefault(t, settings[..|settings| - 1])
        || (settings[|settings| - 1].mint == DEFAULT_KEY
            && Accepts(ApplyAll(t, settings[..|settings| - 1]), settings[|settings| - 1])))
  }

  ghost predicate AllSet(t: Table) {
    forall i :: 0 <= i < |t.entries| && !t.entries[i].IsEmpty() ==> t.entries[i].IsSet()
  }

  /** A table that calls itself final only when every listed mint has a weight. */
  ghost predicate Honest(t: Table) {
    t.Finalized() ==> AllSet(t)
  }

  ghost predicate InSlots(settings: seq<Setting>) {
    forall i :: 0 <= i < |settings| ==> settings[i].slot > 0
  }

  /** What every table has, whichever keys were accepted: the shape it was initialized with, and never
      more weights than mints, because a final table takes no more. */
  ghost predicate TableCounts(t: Table) {
    && t.RegistryInitialized() && t.TableInitialized() && t.vaultCount > 0
    && t.WeightCount() <= t.MintCount() <= MAX_ST_MINTS
  }

  lemma {:induction false} TableOkCounts(t: Table)
    requires TableOk(t)
    ensures TableCounts(t)
  {
    WeightsWithinMints(t);
  }

  lemma {:induction false} ApplyCounts(t: Table, s: Setting)
    requires TableCounts(t) && s.slot > 0
    ensures TableCounts(Apply(t, s)) && Apply(t, s).MintCount() == t.MintCount()
  {
    if Accepts(t, s) {
      SetWeightKeeps(t, s.mint, s.weight, s.slot);
    }
  }

  /** An empty entry that carries a weight: the trace a default key leaves. */
  ghost predicate Tainted(t: Table) {
    exists i :: 0 <= i < |t.entries| && t.entries[i].IsEmpty() && t.entries[i].IsSet()
  }

  lemma {:induction false} TaintedExactly(t: Table)
    requires TableCounts(t)
    ensures Tainted(t) <==> !TableOk(t)
  {
  }

  lemma {:induction false} ApplyKeepsTaint(t: Table, s: Setting)
    requires Tainted(t) && s.slot > 0
    ensures Tainted(Apply(t, s))
  {
    var i :| 0 <= i < |t.entries| && t.entries[i].IsEmpty() && t.entries[i].IsSet();
    assert Apply(t, s).entries[i].IsEmpty() && Apply(t, s).entries[i].IsSet();
  }

  /** Every listed mint and one empty entry would be more weights than mints: a tainted table never has
      a weight for every listed mint. */
  lemma {:induction false} TaintedIsNeverComplete(t: Table)
    requires TableCounts(t) && Tainted(t)
    ensures !AllSet(t)
  {
    if AllSet(t) {
      var i :| 0 <= i < |t.entries| && t.entries[i].IsEmpty() && t.entries[i].IsSet();
      SumStrict(MintFlags(t.entries), WeightFlags(t.entries), i);
    }
  }

  /** Along a run, the table is in order exactly as long as no default key was accepted. */
  lemma {:induction false} TaintIsAccepted(t: Table, settings: seq<Setting>)
    requires TableOk(t) && InSlots(settings)
    ensures TableCounts(ApplyAll(t, settings))
    ensures TableOk(ApplyAll(t, settings)) <==> !AcceptedDefault(t, settings)
    decreases |settings|
  {
    TableOkCounts(t);
    if settings != [] {
      var before, s := settings[..|settings| - 1], settings[|settings| - 1];
      var t1 := ApplyAll(t, before);
      TaintIsAccepted(t, before);
      ApplyCounts(t1, s);
      TaintedExactly(t1);
      TaintedExactly(Apply(t1, s));
      if TableOk(t1) {
        if Accepts(t1, s) {
          DefaultMintExactly(t1, s.mint, s.weight, s.slot);
        }
      } else {
        ApplyKeepsTaint(t1, s);
      }
    }
  }

  /** What an honest table is, at every point of a run: as long as no default key was accepted it is
      final exactly when every listed mint has a weight; from the first one accepted on it never has
      all weights, so it is honest only while it is not final. */
  lemma {:induction false} HonestExactly(t: Table, settings: seq<Setting>)
    requires TableOk(t) && InSlots(settings)
    ensures var t' := ApplyAll(t, settings);
      && (!AcceptedDefault(t, settings) ==> (t'.Finalized() <==> AllSet(t')))
      && (AcceptedDefault(t, settings) ==> !AllSet(t') && (Honest(t') <==> !t'.Finalized()))
  {
    var t' := ApplyAll(t, settings);
    TaintIsAccepted(t, settings);
    if AcceptedDefault(t, settings) {
      TaintedExactly(t');
      TaintedIsNeverComplete(t');
    } else {
      FinalizedExactly(t');
    }
  }

  // ------------------------------------------------------------------
  // What a table has been told
  // ------------------------------------------------------------------

  /** The settings for a key that were accepted, in order. */
  function AcceptedFor(t: Table, settings: seq<Setting>, key: Key): seq<Setting> {
    if settings == [] then []
    else
      var before, s := settings[..|settings| - 1], settings[|settings| - 1];
      AcceptedFor(t, before, key) + if s.mint == key && Accepts(ApplyAll(t, before), s) then [s] else []
  }

  /** An entry that keeps what it was listed with, and carries the weight it was given last and the
      slots in which it was given its first and its last. */
  ghost predicate Carries(e: WeightEntry, listed: MintEntry, accepted: seq<Setting>) {
    && e.entry == listed
    && if accepted == [] then e.weight == e.slotSet == e.slotUpdated == 0
       else && e.weight == accepted[|accepted| - 1].weight && e.slotUpdated == accepted[|accepted| - 1].slot
            && e.slotSet == accepted[0].slot > 0
  }

  /** The first listed mint with a key. */
  ghost predicate FirstListed(mints: seq<MintEntry>, key: Key, r: nat) {
    && r < |mints| && mints[r].mint == key
    && forall j :: 0 <= j < r ==> mints[j].mint != key
  }

  ghost predicate Remembers(t: Table, mints: MintTable, key: Key, accepted: seq<Setting>) {
    && (GetEntry(t, key).Ok? <==> exists i :: 0 <= i < MAX_ST_MINTS && mints[i].mint == key)
    && forall r: nat :: FirstListed(mints, key, r) ==>
       GetEntry(t, key).Ok? && Carries(GetEntry(t, key).value, mints[r], accepted)
  }

  lemma {:induction false} NewRemembers(vaultCount: U64, vaults: VaultRegistry, mints: MintTable, key: Key)
    requires Initialize(vaultCount, vaults, mints).Ok?
    ensures Remembers(Initialize(vaultCount, vaults, mints).value, mints, key, [])
  {
    InitializeExactly(vaultCount, vaults, mints);
    var t := Initialize(vaultCount, vaults, mints).value;
    assert forall i :: 0 <= i < MAX_ST_MINTS ==> t.entries[i].entry == mints[i];
    forall r: nat | FirstListed(mints, key, r) ensures FindMint(t.entries, key, 0) == r {
      FindMintIs(t.entries, key, r);
    }
  }

  lemma {:induction false} StepRemembers(t: Table, mints: MintTable, key: Key, accepted: seq<Setting>, s: Setting)
    requires Remembers(t, mints, key, accepted) && Accepts(t, s) && s.slot > 0
    ensures Remembers(Apply(t, s), mints, key, if s.mint == key then accepted + [s] else accepted)
  {
    SetWeightKeeps(t, s.mint, s.weight, s.slot);
  }

  /** Over every run from a new table: an entry is found exactly for a key that was listed, is the first
      that was listed with it, and carries exactly the weight that was accepted for it last. */
  lemma {:induction false} RunRemembers(vaultCount: U64, vaults: VaultRegistry, mints: MintTable,
                                        settings: seq<Setting>, key: Key)
    requires Initialize(vaultCount, vaults, mints).Ok? && InSlots(settings)
    ensures var t := Initialize(vaultCount, vaults, mints).value;
      && ApplyAll(t, settings).vaultCount == vaultCount && ApplyAll(t, settings).vaults == vaults
      && Remembers(ApplyAll(t, settings), mints, key, AcceptedFor(t, settings, key))
    decreases |settings|
  {
    var t := Initialize(vaultCount, vaults, mints).value;
    if settings == [] {
      NewRemembers(vaultCount, vaults, mints, key);
    } else {
      var before, s := settings[..|settings| - 1], settings[|settings| - 1];
      RunRemembers(vaultCount, vaults, mints, before, key);
      if Accepts(ApplyAll(t, before), s) {
        StepRemembers(ApplyAll(t, before), mints, key, AcceptedFor(t, before, key), s);
      }
    }
  }

  // ------------------------------------------------------------------
  // Every default key that is accepted can end in a table that lies
  // ------------------------------------------------------------------

  /** The vault registry lists a mint once. */
  ghost predicate DistinctMints(entries: seq<WeightEntry>) {
    forall i, j :: 0 <= i < j < |entries| && !entries[i].IsEmpty() ==> entries[i].entry.mint != entries[j].entry.mint
  }

  /** Settings for the listed mints among the first `n` entries, one after the other. */
  function SetEach(entries: seq<WeightEntry>, n: nat): (settings: seq<Setting>)
    requires n <= |entries|
    ensures forall i :: 0 <= i < |settings| ==> settings[i].slot > 0 && settings[i].mint != DEFAULT_KEY
  {
    if n == 0 then []
    else if entries[n - 1].IsEmpty() then SetEach(entries, n - 1)
    else SetEach(entries, n - 1) + [Setting(entries[n - 1].entry.mint, 1, 1)]
  }

  /** Writing weights never changes which mints are listed. */
  ghost predicate SameMints(t: Table, t': Table) {
    forall i :: 0 <= i < MAX_ST_MINTS ==>
      t'.entries[i].entry == t.entries[i].entry && (t.entries[i].IsSet() ==> t'.entries[i].IsSet())
  }

  lemma {:induction false} ApplyKeepsMints(t: Table, s: Setting)
    requires s.slot > 0
    ensures SameMints(t, Apply(t, s))
  {
  }

  /** The setting for entry `k` reaches that entry, whatever was set before. */
  lemma {:induction false} SettingReaches(t: Table, t1: Table, k: nat)
    requires DistinctMints(t.entries) && SameMints(t, t1) && k < MAX_ST_MINTS && !t.entries[k].IsEmpty()
    requires !t1.Finalized()
    ensures Apply(t1, Setting(t.entries[k].entry.mint, 1, 1)).entries[k].IsSet()
  {
    FindMintIs(t1.entries, t.entries[k].entry.mint, k);
  }

  lemma {:induction false} SameMintsTrans(t: Table, t1: Table, t2: Table)
    requires SameMints(t, t1) && SameMints(t1, t2)
    ensures SameMints(t, t2)
  {
  }

  /** The first `n` listed mints have their weight, or the table became final before. */
  ghost predicate FirstAreSet(t: Table, t': Table, n: nat) {
    && n <= MAX_ST_MINTS && SameMints(t, t')
    && (t'.Finalized() || forall i :: 0 <= i < n && !t.entries[i].IsEmpty() ==> t'.entries[i].IsSet())
  }

  lemma {:induction false} OneMoreIsSet(t: Table, t1: Table, k: nat)
    requires DistinctMints(t.entries) && k < MAX_ST_MINTS && !t.entries[k].IsEmpty() && FirstAreSet(t, t1, k)
    ensures FirstAreSet(t, Apply(t1, Setting(t.entries[k].entry.mint, 1, 1)), k + 1)
  {
    var s := Setting(t.entries[k].entry.mint, 1, 1);
    ApplyKeepsMints(t1, s);
    SameMintsTrans(t, t1, Apply(t1, s));
    if !t1.Finalized() {
      SettingReaches(t, t1, k);
    }
  }

  lemma {:induction false} EmptyIsSkipped(t: Table, t1: Table, k: nat)
    requires k < MAX_ST_MINTS && t.entries[k].IsEmpty() && FirstAreSet(t, t1, k)
    ensures FirstAreSet(t, t1, k + 1)
  {
  }

  lemma {:induction false} NoneAreSet(t: Table)
    ensures FirstAreSet(t, t, 0)
  {
  }

  lemma {:induction false} ApplyLast(t: Table, before: seq<Setting>, s: Setting)
    ensures ApplyAll(t, before + [s]) == Apply(ApplyAll(t, before), s)
  {
    assert (before + [s])[..|before|] == before;
  }

  /** Unless the table becomes final on the way, all of them get their weight. */
  lemma {:induction false} SetEachSets(t: Table, n: nat)
    requires DistinctMints(t.entries) && n <= MAX_ST_MINTS
    ensures FirstAreSet(t, ApplyAll(t, SetEach(t.entries, n)), n)
  {
    if n == 0 {
      NoneAreSet(t);
    } else {
      SetEachSets(t, n - 1);
      var before := SetEach(t.entries, n - 1);
      if t.entries[n - 1].IsEmpty() {
        EmptyIsSkipped(t, ApplyAll(t, before), n - 1);
      } else {
        OneMoreIsSet(t, ApplyAll(t, before), n - 1);
        ApplyLast(t, before, Setting(t.entries[n - 1].entry.mint, 1, 1));
      }
    }
  }

  /** With distinct mints, the table stays honest at every point of every continuation that sets
      weights for mints if and only if no default key was accepted so far. */
  lemma {:induction false} HonestForGoodExactly(t: Table, settings: seq<Setting>)
    requires TableOk(t) && DistinctMints(t.entries) && InSlots(settings)
    ensures !AcceptedDefault(t, settings) <==>
      forall more: seq<Setting> :: InSlots(more) && ForMints(more) ==> Honest(ApplyAll(ApplyAll(t, settings), more))
  {
    var t1 := ApplyAll(t, settings);
    TaintIsAccepted(t, settings);
    if !AcceptedDefault(t, settings) {
      forall more: seq<Setting> | InSlots(more) && ForMints(more) ensures Honest(ApplyAll(t1, more)) {
        NoDefaultAmongMints(t1, more);
        HonestExactly(t1, more);
      }
    } else {
      AllKeepMints(t, settings);
      LyingContinuation(t1);
    }
  }

  ghost predicate ForMints(settings: seq<Setting>) {
    forall i :: 0 <= i < |settings| ==> settings[i].mint != DEFAULT_KEY
  }

  lemma {:induction false} NoDefaultAmongMints(t: Table, settings: seq<Setting>)
    requires ForMints(settings)
    ensures !AcceptedDefault(t, settings)
  {
    if settings != [] {
      NoDefaultAmongMints(t, settings[..|settings| - 1]);
    }
  }

  lemma {:induction false} AllKeepMints(t: Table, settings: seq<Setting>)
    requires InSlots(settings)
    ensures SameMints(t, ApplyAll(t, settings))
  {
    if settings != [] {
      AllKeepMints(t, settings[..|settings| - 1]);
      ApplyKeepsMints(ApplyAll(t, settings[..|settings| - 1]), settings[|settings| - 1]);
    }
  }

  lemma {:induction false} AllKeepTaint(t: Table, settings: seq<Setting>)
    requires TableCounts(t) && Tainted(t) && InSlots(settings)
    ensures TableCounts(ApplyAll(t, settings)) && Tainted(ApplyAll(t, settings))
  {
    if settings != [] {
      AllKeepTaint(t, settings[..|settings| - 1]);
      ApplyCounts(ApplyAll(t, settings[..|settings| - 1]), settings[|settings| - 1]);
      ApplyKeepsTaint(ApplyAll(t, settings[..|settings| - 1]), settings[|settings| - 1]);
    }
  }

  /** A tainted table, given a weight for each listed mint in turn, calls itself final with one of them
      unset. */
  lemma {:induction false} LyingContinuation(t: Table)
    requires TableCounts(t) && Tainted(t) && DistinctMints(t.entries)
    ensures exists more: seq<Setting> :: InSlots(more) && ForMints(more) && !Honest(ApplyAll(t, more))
  {
    var more := SetEach(t.entries, MAX_ST_MINTS);
    assert InSlots(more) && ForMints(more);
    SetEachSets(t, MAX_ST_MINTS);
    AllKeepTaint(t, more);
    TaintedIsNeverComplete(ApplyAll(t, more));
  }

  function TwoMints(a: MintEntry, b: MintEntry): (r: MintTable)
    ensures r[0] == a && r[1] == b && forall i :: 2 <= i < MAX_ST_MINTS ==> r[i] == EMPTY_MINT
  {
    Filled(MAX_ST_MINTS, EMPTY_MINT)[0 := a][1 := b]
  }

  /** The default key is not a mint, and the instruction that sets a weight does not refuse it: it
      finds the first empty slot. Two mints are listed; after the default key and the first mint are
      given weights the table calls itself final with the second mint unset. */
  lemma {:induction false} DefaultMintFinalizesEarly(a: Key, b: Key, slot: U64)
    requires a != DEFAULT_KEY && b != DEFAULT_KEY && a != b && slot > 0
    ensures var made := Initialize(1, Filled(MAX_VAULTS, EMPTY_VAULT_INDEX)[0 := 0],
                                   TwoMints(MintEntry(a, 0, 0), MintEntry(b, 0, 0)));
      && made.Ok?
      && var first := SetWeight(made.value, DEFAULT_KEY, 1, slot);
      && first.Ok? && !first.value.Finalized()
      && var second := SetWeight(first.value, a, 1, slot);
      && second.Ok? && second.value.Finalized() && GetEntry(second.value, b).Ok?
      && !GetEntry(second.value, b).value.IsSet()
  {
    var vaults := Filled<U64>(MAX_VAULTS, EMPTY_VAULT_INDEX)[0 := 0];
    var mints := TwoMints(MintEntry(a, 0, 0), MintEntry(b, 0, 0));
    var none := Filled<nat>(MAX_VAULTS, 0);
    SumZero(none);
    SumUpdate(none, 0, 1);
    assert VaultFlags(vaults) == none[0 := 1];
    var t0 := Table(1, vaults, NewEntries(mints));
    SumUpdate(none[0 := 1], 1, 1);
    assert MintFlags(t0.entries) == none[0 := 1][1 := 1];
    FindMintIs(t0.entries, DEFAULT_KEY, 2);
    var t1 := SetWeight(t0, DEFAULT_KEY, 1, slot).value;
    assert MintFlags(t1.entries) == none[0 := 1][1 := 1];
    SumUpdate(none, 2, 1);
    assert WeightFlags(t1.entries) == none[2 := 1];
    FindMintIs(t1.entries, a, 0);
    var t2 := SetWeight(t1, a, 1, slot).value;
    assert MintFlags(t2.entries) == none[0 := 1][1 := 1];
    SumUpdate(none[2 := 1], 0, 1);
    assert WeightFlags(t2.entries) == none[2 := 1][0 := 1];
    FindMintIs(t2.entries, b, 1);
  }
}

/** `WeightTable` as the program holds it. */
module WeightTableAccount {
  import opened Common
  import opened Sums
  import Spec = WeightTableSpec

  class WeightTable {
    var vaultCount: U64
    const vaultRegistry: array<U64>
    const table: array<Spec.WeightEntry>

    ghost predicate Shaped() {
      vaultRegistry.Length == MAX_VAULTS && table.Length == MAX_ST_MINTS
    }

    ghost function State(): Spec.Table
      requires Shaped()
      reads this, vaultRegistry, table
    {
      Spec.Table(vaultCount, vaultRegistry[..], table[..])
    }

    constructor ()
      ensures Shaped() && fresh(vaultRegistry) && fresh(table)
    {
      vaultCount := 0;
      vaultRegistry := new U64[MAX_VAULTS](_ => Spec.EMPTY_VAULT_INDEX);
      table := new Spec.WeightEntry[MAX_ST_MINTS](_ => Spec.EMPTY_ENTRY);
    }

    method Initialize(vaultCount: U64, vaults: Spec.VaultRegistry, mints: Spec.MintTable) returns (r: Result<()>)
      requires Shaped()
      modifies this, vaultRegistry, table
      ensures match Spec.Initialize(vaultCount, vaults, mints)
        case Ok(t) => r.Ok? && State() == t
        case Err(e) => r == Err(e)
    {
      this.vaultCount := vaultCount;
      if vaultCount == 0 {
        return Err(WeightTableAlreadyInitialized);
      }
      for i := 0 to MAX_VAULTS
        invariant forall j :: 0 <= j < i ==> vaultRegistry[j] == vaults[j]
        invariant this.vaultCount == vaultCount
      {
        vaultRegistry[i] := vaults[i];
      }
      assert vaultRegistry[..] == vaults;
      var registered := VaultEntryCount();
      if vaultCount != registered {
        return Err(RegistryNotInitialized);
      }
      for i := 0 to MAX_ST_MINTS
        invariant forall j :: 0 <= j < i ==> table[j] == Spec.NewEntry(mints[j])
        invariant this.vaultCount == vaultCount && vaultRegistry[..] == vaults
      {
        table[i] := Spec.NewEntry(mints[i]);
      }
      assert table[..] == Spec.NewEntries(mints);
      var listed := MintCount();
      if listed == 0 {
        return Err(TableNotInitialized);
      }
      return Ok(());
    }

    method SetWeight(mint: Key, weight: U128, slot: U64) returns (r: Result<()>)
      requires Shaped()
      modifies table
      ensures match Spec.SetWeight(old(State()), mint, weight, slot)
        case Ok(t) => r.Ok? && State() == t
        case Err(e) => r == Err(e) && State() == old(State())
    {
      ghost var entries := table[..];
      for i := 0 to table.Length
        invariant table[..] == entries
        invariant Spec.FindMint(entries, mint, i) == Spec.FindMint(entries, mint, 0)
      {
        if table[i].entry.mint == mint {
          table[i] := Spec.WithWeight(table[i], weight, slot);
          assert table[..] == entries[i := table[i]];
          return Ok(());
        }
      }
      return Err(InvalidMint);
    }

    /** The counts: how many entries name a mint, have a weight, or name a vault. */
    method MintCount() returns (n: nat)
      requires Shaped()
      ensures n == State().MintCount()
    {
      n := 0;
      for i := 0 to table.Length
        invariant n == Sum(Spec.MintFlags(table[..])[..i])
      {
        SumPrefix(Spec.MintFlags(table[..]), i);
        if !table[i].IsEmpty() {
          n := n + 1;
        }
      }
      assert Spec.MintFlags(table[..])[..table.Length] == Spec.MintFlags(table[..]);
    }

    method WeightCount() returns (n: nat)
      requires Shaped()
      ensures n == State().WeightCount()
    {
      n := 0;
      for i := 0 to table.Length
        invariant n == Sum(Spec.WeightFlags(table[..])[..i])
      {
        SumPrefix(Spec.WeightFlags(table[..]), i);
        if table[i].IsSet() {
          n := n + 1;
        }
      }
      assert Spec.WeightFlags(table[..])[..table.Length] == Spec.WeightFlags(table[..]);
    }

    method VaultEntryCount() returns (n: nat)
      requires Shaped()
      ensures n == Sum(Spec.VaultFlags(State().vaults))
    {
      n := 0;
      for i := 0 to vaultRegistry.Length
        invariant n == Sum(Spec.VaultFlags(vaultRegistry[..])[..i])
      {
        SumPrefix(Spec.VaultFlags(vaultRegistry[..]), i);
        if vaultRegistry[i] != Spec.EMPTY_VAULT_INDEX {
          n := n + 1;
        }
      }
      assert Spec.VaultFlags(vaultRegistry[..])[..vaultRegistry.Length] == Spec.VaultFlags(vaultRegistry[..]);
    }

    method Finalized() returns (final: bool)
      requires Shaped()
      ensures final == State().Finalized()
    {
      var vaults := VaultEntryCount();
      var mints := MintCount();
      var weights := WeightCount();
      return vaultCount == vaults && mints > 0 && mints == weights;
    }
  }
}
