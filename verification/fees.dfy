/** Two-slot fees: one slot is in force while the other is prepared for the next epoch
    (core/src/fees.rs). */
module FeesSpec {
  import opened Common
  import opened Sums

  type FeeTable = s: seq<U16> | |s| == FEE_GROUP_COUNT witness Filled(FEE_GROUP_COUNT, 0)
  type WalletTable = s: seq<Key> | |s| == FEE_GROUP_COUNT witness Filled(FEE_GROUP_COUNT, 0)

  datatype Fees = Fees(activationEpoch: U64, base: FeeTable, ncn: FeeTable) {
    /** `total_fees_bps`: at most 16 entries of 16 bits, so its checked additions cannot overflow. */
    function Total(): nat {
      Sum(base) + Sum(ncn)
    }

    predicate SameValues(other: Fees) {
      base == other.base && ncn == other.ncn
    }
  }

  datatype Config = Config(blockEngineBps: U16, wallets: WalletTable, fee1: Fees, fee2: Fees)

  /** The fees in force at an epoch. */
  function CurrentFees(c: Config, epoch: U64): Fees {
    if c.fee1.activationEpoch > epoch then c.fee2
    else if c.fee2.activationEpoch > epoch then c.fee1
    else if c.fee1.activationEpoch >= c.fee2.activationEpoch then c.fee1
    else c.fee2
  }

  /** Which slot an update at an epoch writes. */
  predicate UpdatesFirst(c: Config, epoch: U64) {
    if c.fee1.activationEpoch > epoch then true
    else if c.fee2.activationEpoch > epoch then false
    else c.fee1.activationEpoch <= c.fee2.activationEpoch
  }

  function UpdatableFees(c: Config, epoch: U64): Fees {
    if UpdatesFirst(c, epoch) then c.fee1 else c.fee2
  }

  function WithUpdatable(c: Config, epoch: U64, fees: Fees): Config {
    if UpdatesFirst(c, epoch) then c.(fee1 := fees) else c.(fee2 := fees)
  }

  function SetFeesToCurrent(c: Config, epoch: U64): Result<Config> {
    if c.fee1.activationEpoch > epoch || c.fee2.activationEpoch > epoch then Err(FeeNotActive)
    else Ok(WithUpdatable(c, epoch, CurrentFees(c, epoch)))
  }

  type Group = g: nat | g < FEE_GROUP_COUNT

  /** What one call of `update_fee_config` asks for; an absent group means the default group. */
  datatype Update = Update(
    blockEngineBps: Option<U16>,
    baseGroup: Option<Group>, baseWallet: Option<Key>, baseBps: Option<U16>,
    ncnGroup: Option<Group>, ncnBps: Option<U16>)
  {
    function BaseGroup(): Group {
      if baseGroup.Some? then baseGroup.value else 0
    }

    function NcnGroup(): Group {
      if ncnGroup.Some? then ncnGroup.value else 0
    }

    /** The requested entries replaced, all others kept. */
    function BaseOver(base: FeeTable): FeeTable {
      if baseBps.Some? then base[BaseGroup() := baseBps.value] else base
    }

    function NcnOver(ncn: FeeTable): FeeTable {
      if ncnBps.Some? then ncn[NcnGroup() := ncnBps.value] else ncn
    }
  }

  function SetBaseFeeBps(c: Config, group: Group, bps: U16, epoch: U64): Result<Config> {
    if bps > MAX_BPS then Err(FeeCapExceeded)
    else
      var fees := UpdatableFees(c, epoch);
      Ok(WithUpdatable(c, epoch, fees.(base := fees.base[group := bps])))
  }

  function SetNcnFeeBps(c: Config, group: Group, bps: U16, epoch: U64): Result<Config> {
    if bps > MAX_BPS then Err(FeeCapExceeded)
    else
      var fees := UpdatableFees(c, epoch);
      Ok(WithUpdatable(c, epoch, fees.(ncn := fees.ncn[group := bps])))
  }

  function UpdateUpdatableEpoch(c: Config, epoch: U64): Result<Config> {
    var next :- CheckedAdd64(epoch, 1);
    Ok(WithUpdatable(c, epoch, UpdatableFees(c, epoch).(activationEpoch := next)))
  }

  /** `check_fees_okay`: a block engine fee of the whole leaves nothing to scale the others by. */
  function CheckFeesOkay(c: Config, epoch: U64): Result<()> {
    if c.blockEngineBps > MAX_BPS then Err(FeeCapExceeded)
    else if c.blockEngineBps == MAX_BPS then Err(DenominatorIsZero)
    else if CurrentFees(c, epoch).Total() > MAX_BPS then Err(FeeCapExceeded)
    else if CurrentFees(c, epoch).Total() == 0 then Err(TotalFeesCannotBeZero)
    else Ok(())
  }

  /** First part of an update: with nothing scheduled yet, start from the fees in force. */
  function Prepare(c: Config, epoch: U64): Result<Config> {
    if UpdatableFees(c, epoch).activationEpoch <= epoch then SetFeesToCurrent(c, epoch) else Ok(c)
  }

  /** Second part: write the requested entries. Wallets and the block engine fee change at once. */
  function Request(c: Config, u: Update, epoch: U64): Result<Config> {
    var c1 := if u.blockEngineBps.Some? then c.(blockEngineBps := u.blockEngineBps.value) else c;
    var c2 := if u.baseWallet.Some? then c1.(wallets := c1.wallets[u.BaseGroup() := u.baseWallet.value]) else c1;
    var c3 :- if u.baseBps.Some? then SetBaseFeeBps(c2, u.BaseGroup(), u.baseBps.value, epoch) else Ok(c2);
    if u.ncnBps.Some? then SetNcnFeeBps(c3, u.NcnGroup(), u.ncnBps.value, epoch) else Ok(c3)
  }

  /** Last part: schedule the slot for the next epoch and check both epochs. */
  function Schedule(c: Config, epoch: U64): Result<Config> {
    var c' :- UpdateUpdatableEpoch(c, epoch);
    var _ :- CheckFeesOkay(c', epoch);
    var _ :- CheckFeesOkay(c', epoch + 1);
    Ok(c')
  }

  function UpdateFeeConfig(c: Config, u: Update, epoch: U64): Result<Config> {
    var c1 :- Prepare(c, epoch);
    var c2 :- Request(c1, u, epoch);
    Schedule(c2, epoch)
  }

  /** `FeeConfig::new`: both slots start out identical. */
  function NewConfig(daoWallet: Key, blockEngineBps: U16, daoBps: U16, ncnBps: U16, epoch: U64): Result<Config> {
    if daoWallet == DEFAULT_KEY then Err(DefaultDaoWallet)
    else if blockEngineBps > MAX_BPS || daoBps > MAX_BPS || ncnBps > MAX_BPS then Err(FeeCapExceeded)
    else
      var none := Filled<U16>(FEE_GROUP_COUNT, 0);
      var fees := Fees(epoch, none[0 := daoBps], none[0 := ncnBps]);
      var c := Config(blockEngineBps, Filled(FEE_GROUP_COUNT, daoWallet), fees, fees);
      var _ :- CheckFeesOkay(c, epoch);
      Ok(c)
  }
}

module FeesProofs {
  import opened Common
  import opened Sums
  import opened FeesSpec

  /** Legal totals in both slots; at most one slot waits for the epoch after the last update; equal
      activation epochs only on identical slots. */
  ghost predicate Consistent(c: Config, epoch: U64) {
    && c.blockEngineBps < MAX_BPS
    && 1 <= c.fee1.Total() <= MAX_BPS
    && 1 <= c.fee2.Total() <= MAX_BPS
    && c.fee1.activationEpoch <= epoch + 1
    && c.fee2.activationEpoch <= epoch + 1
    && (c.fee1.activationEpoch <= epoch || c.fee2.activationEpoch <= epoch)
    && (c.fee1.activationEpoch == c.fee2.activationEpoch ==> c.fee1 == c.fee2)
  }

  lemma {:induction false} NewConfigIsConsistent(daoWallet: Key, blockEngineBps: U16, daoBps: U16, ncnBps: U16,
                                                 epoch: U64)
    requires NewConfig(daoWallet, blockEngineBps, daoBps, ncnBps, epoch).Ok?
    ensures Consistent(NewConfig(daoWallet, blockEngineBps, daoBps, ncnBps, epoch).value, epoch)
  {
  }

  lemma {:induction false} OneEntry(bps: U16)
    ensures Sum(Filled<U16>(FEE_GROUP_COUNT, 0)[0 := bps]) == bps
  {
    var none := Filled<nat>(FEE_GROUP_COUNT, 0);
    SumZero(none);
    SumUpdate(none, 0, bps);
    assert none[0 := bps as nat] == Filled<U16>(FEE_GROUP_COUNT, 0)[0 := bps];
  }

  /** Fees as a new configuration has them: one group, the first, in each of the two tables. */
  ghost predicate FirstGroupsOnly(fees: Fees, daoBps: U16, ncnBps: U16, epoch: U64) {
    && fees.activationEpoch == epoch
    && fees.base[0] == daoBps && fees.ncn[0] == ncnBps
    && forall g :: 0 < g < FEE_GROUP_COUNT ==> fees.base[g] == fees.ncn[g] == 0
  }

  /** A configuration can be made exactly with a wallet, a block engine fee below the whole, and two
      fees that are not both zero and together at most the whole. The DAO's fee is the base fee of the
      first group, the operators' fee the other, from the same epoch on, and every group pays the same
      wallet. */
  lemma {:induction false} NewConfigExactly(daoWallet: Key, blockEngineBps: U16, daoBps: U16, ncnBps: U16, epoch: U64)
    ensures NewConfig(daoWallet, blockEngineBps, daoBps, ncnBps, epoch).Ok? <==>
      daoWallet != DEFAULT_KEY && blockEngineBps < MAX_BPS && 1 <= daoBps + ncnBps <= MAX_BPS
    ensures NewConfig(daoWallet, blockEngineBps, daoBps, ncnBps, epoch).Ok? ==>
      var c := NewConfig(daoWallet, blockEngineBps, daoBps, ncnBps, epoch).value;
      && c.blockEngineBps == blockEngineBps
      && (forall g :: 0 <= g < FEE_GROUP_COUNT ==> c.wallets[g] == daoWallet)
      && FirstGroupsOnly(c.fee1, daoBps, ncnBps, epoch) && FirstGroupsOnly(c.fee2, daoBps, ncnBps, epoch)
  {
    OneEntry(daoBps);
    OneEntry(ncnBps);
  }

  /** The slot an update writes, with the request carried out and the next epoch as its start. */
  function Replaced(fees: Fees, u: Update, epoch: U64): Fees
    requires epoch < U64_MAX
  {
    Fees(epoch + 1, u.BaseOver(fees.base), u.NcnOver(fees.ncn))
  }

  /** What is asked for, group by group: at most one entry of each table, in the group that is named or
      else the first. */
  ghost predicate Requested(fees: Fees, fees': Fees, u: Update) {
    forall g: Group ::
      && fees'.base[g] == (if u.baseBps.Some? && g == (if u.baseGroup.Some? then u.baseGroup.value else 0)
                           then u.baseBps.value else fees.base[g])
      && fees'.ncn[g] == (if u.ncnBps.Some? && g == (if u.ncnGroup.Some? then u.ncnGroup.value else 0)
                          then u.ncnBps.value else fees.ncn[g])
  }

  /** The parts of a configuration that do not wait for the next epoch: the block engine fee, and the
      wallet of one group. */
  ghost predicate PaidAtOnce(c: Config, c': Config, u: Update) {
    && c'.blockEngineBps == (if u.blockEngineBps.Some? then u.blockEngineBps.value else c.blockEngineBps)
    && forall g: Group ::
       c'.wallets[g] == if u.baseWallet.Some? && g == (if u.baseGroup.Some? then u.baseGroup.value else 0)
                        then u.baseWallet.value else c.wallets[g]
  }

  lemma {:induction false} RequestWritesOneSlot(c: Config, u: Update, epoch: U64)
    requires epoch < U64_MAX && Request(c, u, epoch).Ok?
    ensures var c' := Request(c, u, epoch).value;
      && UpdatesFirst(c', epoch) == UpdatesFirst(c, epoch)
      && c'.fee1 == (if UpdatesFirst(c, epoch)
                     then Replaced(c.fee1, u, epoch).(activationEpoch := c.fee1.activationEpoch)
                     else c.fee1)
      && c'.fee2 == (if UpdatesFirst(c, epoch) then c.fee2
                     else Replaced(c.fee2, u, epoch).(activationEpoch := c.fee2.activationEpoch))
      && PaidAtOnce(c, c', u)
  {
  }

  lemma {:induction false} PrepareKeepsCurrent(c: Config, last: U64, epoch: U64)
    requires Consistent(c, last) && last <= epoch < U64_MAX
    ensures Prepare(c, epoch).Ok?
    ensures var c' := Prepare(c, epoch).value;
      && CurrentFees(c', epoch) == CurrentFees(c, epoch)
      && CurrentFees(c', epoch + 1) == CurrentFees(c, epoch + 1) == UpdatableFees(c', epoch)
      && (c' == c || c'.fee1 == c'.fee2)
      && c'.blockEngineBps == c.blockEngineBps && c'.wallets == c.wallets
      && (c'.fee1.activationEpoch <= epoch || c'.fee2.activationEpoch <= epoch)
      && (c'.fee1.activationEpoch == c'.fee2.activationEpoch ==> c'.fee1 == c'.fee2)
  {
  }

  /** An update leaves the epoch under way alone, gives the next epoch its old fees with exactly the
      requested entries replaced, and keeps the two slots consistent. */
  lemma {:induction false} UpdateKeepsCurrentEpoch(c: Config, u: Update, last: U64, epoch: U64)
    requires Consistent(c, last) && last <= epoch < U64_MAX
    requires UpdateFeeConfig(c, u, epoch).Ok?
    ensures var c' := UpdateFeeConfig(c, u, epoch).value;
      && Consistent(c', epoch)
      && CurrentFees(c', epoch).SameValues(CurrentFees(c, epoch))
      && CurrentFees(c', epoch + 1) == Replaced(CurrentFees(c, epoch + 1), u, epoch)
      && Requested(CurrentFees(c, epoch + 1), CurrentFees(c', epoch + 1), u)
      && PaidAtOnce(c, c', u)
  {
    PrepareKeepsCurrent(c, last, epoch);
    RequestWritesOneSlot(Prepare(c, epoch).value, u, epoch);
  }

  /** The requests that can be carried out: no fee above the whole, less than the whole for the block
      engine, and a total of the next epoch's fees that is neither zero nor above the whole. */
  ghost predicate Acceptable(next: Fees, u: Update) {
    && (u.baseBps.Some? ==> u.baseBps.value <= MAX_BPS)
    && (u.ncnBps.Some? ==> u.ncnBps.value <= MAX_BPS)
    && (u.blockEngineBps.Some? ==> u.blockEngineBps.value < MAX_BPS)
    && 1 <= Sum(u.BaseOver(next.base)) + Sum(u.NcnOver(next.ncn)) <= MAX_BPS
  }

  lemma {:induction false} ScheduleExactly(c: Config, epoch: U64)
    requires epoch < U64_MAX
    requires c.fee1.activationEpoch <= epoch || c.fee2.activationEpoch <= epoch
    ensures Schedule(c, epoch).Ok? <==>
      && c.blockEngineBps < MAX_BPS
      && 1 <= c.fee1.Total() <= MAX_BPS && 1 <= c.fee2.Total() <= MAX_BPS
  {
  }

  lemma {:induction false} RequestExactly(c: Config, u: Update, epoch: U64)
    ensures Request(c, u, epoch).Ok? <==>
      && (u.baseBps.Some? ==> u.baseBps.value <= MAX_BPS)
      && (u.ncnBps.Some? ==> u.ncnBps.value <= MAX_BPS)
  {
  }

  /** Nothing else is refused. */
  lemma {:induction false} UpdateExactly(c: Config, u: Update, last: U64, epoch: U64)
    requires Consistent(c, last) && last <= epoch < U64_MAX
    ensures UpdateFeeConfig(c, u, epoch).Ok? <==> Acceptable(CurrentFees(c, epoch + 1), u)
  {
    PrepareKeepsCurrent(c, last, epoch);
    var c1 := Prepare(c, epoch).value;
    RequestExactly(c1, u, epoch);
    if Request(c1, u, epoch).Ok? {
      RequestWritesOneSlot(c1, u, epoch);
      ScheduleExactly(Request(c1, u, epoch).value, epoch);
    }
  }

  /** Updates asked for one after another, at the epochs they were made in. */
  function Updates(c: Config, us: seq<(Update, U64)>): Result<Config>
    decreases |us|
  {
    if us == [] then Ok(c)
    else
      var c' :- UpdateFeeConfig(c, us[0].0, us[0].1);
      Updates(c', us[1..])
  }

  ghost predicate InOrder(us: seq<(Update, U64)>, from: U64) {
    && (forall i :: 0 <= i < |us| ==> from <= us[i].1 < U64_MAX)
    && (forall i, j :: 0 <= i < j < |us| ==> us[i].1 <= us[j].1)
  }

  function LastEpoch(us: seq<(Update, U64)>, from: U64): U64 {
    if us == [] then from else us[|us| - 1].1
  }

  /** The requests of one epoch, carried out in order. */
  function ReplacedAll(fees: Fees, us: seq<(Update, U64)>, epoch: U64): Fees
    requires epoch < U64_MAX
    decreases |us|
  {
    if us == [] then fees else ReplacedAll(Replaced(fees, us[0].0, epoch), us[1..], epoch)
  }

  /** Over any run of successful updates at epochs that never go back, the slots stay consistent. */
  lemma {:induction false} RunOfUpdates(c: Config, us: seq<(Update, U64)>, from: U64)
    requires Consistent(c, from) && InOrder(us, from)
    requires Updates(c, us).Ok?
    ensures Consistent(Updates(c, us).value, LastEpoch(us, from))
    decreases |us|
  {
    if us == [] {
    } else {
      var (u, epoch) := us[0];
      var c' := OneUpdate(c, u, from, epoch);
      var rest := us[1..];
      assert forall i :: 0 <= i < |rest| ==> rest[i] == us[i + 1];
      assert LastEpoch(rest, epoch) == LastEpoch(us, from);
      RunOfUpdates(c', rest, epoch);
    }
  }

  lemma {:induction false} OneUpdate(c: Config, u: Update, last: U64, epoch: U64) returns (c': Config)
    requires Consistent(c, last) && last <= epoch < U64_MAX
    requires UpdateFeeConfig(c, u, epoch).Ok?
    ensures UpdateFeeConfig(c, u, epoch) == Ok(c')
    ensures Consistent(c', epoch)
    ensures CurrentFees(c', epoch).SameValues(CurrentFees(c, epoch))
    ensures CurrentFees(c', epoch + 1) == Replaced(CurrentFees(c, epoch + 1), u, epoch)
  {
    UpdateKeepsCurrentEpoch(c, u, last, epoch);
    c' := UpdateFeeConfig(c, u, epoch).value;
  }

  /** However many updates fall into one epoch, the fees of that epoch are the same at its end as at
      its start, and the next epoch starts with all the requests carried out in order. */
  lemma {:induction false} EpochOfUpdates(c: Config, us: seq<(Update, U64)>, epoch: U64)
    requires Consistent(c, epoch) && epoch < U64_MAX
    requires forall i :: 0 <= i < |us| ==> us[i].1 == epoch
    requires Updates(c, us).Ok?
    ensures CurrentFees(Updates(c, us).value, epoch).SameValues(CurrentFees(c, epoch))
    ensures CurrentFees(Updates(c, us).value, epoch + 1) == ReplacedAll(CurrentFees(c, epoch + 1), us, epoch)
    decreases |us|
  {
    if us == [] {
    } else {
      var c' := OneUpdate(c, us[0].0, epoch, epoch);
      EpochOfUpdates(c', us[1..], epoch);
    }
  }
}

module FeesAccount {
  import opened Common
  import opened Sums
  import opened FeesSpec

  /** The accumulator loops of `total_fees_bps`: sixteen 16-bit entries always fit in 64 bits. */
  method TotalFeesBps(fees: Fees) returns (total: U64)
    ensures total == fees.Total()
  {
    total := 0;
    for g := 0 to FEE_GROUP_COUNT
      invariant total == Sum(fees.base[..g])
      invariant total <= g * U16_MAX
    {
      SumPrefix(fees.base, g);
      total := total + fees.base[g];
    }
    assert fees.base[..FEE_GROUP_COUNT] == fees.base;
    for g := 0 to FEE_GROUP_COUNT
      invariant total == Sum(fees.base) + Sum(fees.ncn[..g])
      invariant total <= (FEE_GROUP_COUNT + g) * U16_MAX
    {
      SumPrefix(fees.ncn, g);
      total := total + fees.ncn[g];
    }
    assert fees.ncn[..FEE_GROUP_COUNT] == fees.ncn;
  }

  /** `FeeConfig`, whose two slots are written in place. */
  class FeeConfig {
    var blockEngineBps: U16
    var wallets: WalletTable
    var fee1: Fees
    var fee2: Fees

    ghost function State(): Config
      reads this
    {
      Config(blockEngineBps, wallets, fee1, fee2)
    }

    method CurrentFees(epoch: U64) returns (fees: Fees)
      ensures fees == FeesSpec.CurrentFees(State(), epoch)
    {
      if fee1.activationEpoch > epoch {
        return fee2;
      }
      if fee2.activationEpoch > epoch {
        return fee1;
      }
      return if fee1.activationEpoch >= fee2.activationEpoch then fee1 else fee2;
    }

    /** Whether `updatable_fees` hands out the first slot. */
    method UpdatesFirst(epoch: U64) returns (first: bool)
      ensures first == FeesSpec.UpdatesFirst(State(), epoch)
    {
      if fee1.activationEpoch > epoch {
        return true;
      }
      if fee2.activationEpoch > epoch {
        return false;
      }
      return fee1.activationEpoch <= fee2.activationEpoch;
    }

    method SetFeesToCurrent(epoch: U64) returns (r: Result<()>)
      modifies this
      ensures match FeesSpec.SetFeesToCurrent(old(State()), epoch)
        case Ok(c) => r.Ok? && State() == c
        case Err(e) => r == Err(e)
    {
      if fee1.activationEpoch > epoch || fee2.activationEpoch > epoch {
        return Err(FeeNotActive);
      }
      var current := CurrentFees(epoch);
      var first := UpdatesFirst(epoch);
      if first {
        fee1 := current;
      } else {
        fee2 := current;
      }
      return Ok(());
    }

    method SetBaseFeeBps(group: Group, bps: U16, epoch: U64) returns (r: Result<()>)
      modifies this
      ensures match FeesSpec.SetBaseFeeBps(old(State()), group, bps, epoch)
        case Ok(c) => r.Ok? && State() == c
        case Err(e) => r == Err(e)
    {
      if bps > MAX_BPS {
        return Err(FeeCapExceeded);
      }
      var first := UpdatesFirst(epoch);
      if first {
        fee1 := fee1.(base := fee1.base[group := bps]);
      } else {
        fee2 := fee2.(base := fee2.base[group := bps]);
      }
      return Ok(());
    }

    method SetNcnFeeBps(group: Group, bps: U16, epoch: U64) returns (r: Result<()>)
      modifies this
      ensures match FeesSpec.SetNcnFeeBps(old(State()), group, bps, epoch)
        case Ok(c) => r.Ok? && State() == c
        case Err(e) => r == Err(e)
    {
      if bps > MAX_BPS {
        return Err(FeeCapExceeded);
      }
      var first := UpdatesFirst(epoch);
      if first {
        fee1 := fee1.(ncn := fee1.ncn[group := bps]);
      } else {
        fee2 := fee2.(ncn := fee2.ncn[group := bps]);
      }
      return Ok(());
    }

    method CheckFeesOkay(epoch: U64) returns (r: Result<()>)
      ensures r == FeesSpec.CheckFeesOkay(State(), epoch)
    {
      if blockEngineBps > MAX_BPS {
        return Err(FeeCapExceeded);
      }
      if blockEngineBps == MAX_BPS {
        return Err(DenominatorIsZero);
      }
      var current := CurrentFees(epoch);
      var total := TotalFeesBps(current);
      if total > MAX_BPS {
        return Err(FeeCapExceeded);
      }
      if total == 0 {
        return Err(TotalFeesCannotBeZero);
      }
      return Ok(());
    }

    method Prepare(epoch: U64) returns (r: Result<()>)
      modifies this
      ensures match FeesSpec.Prepare(old(State()), epoch)
        case Ok(c) => r.Ok? && State() == c
        case Err(e) => r == Err(e)
    {
      var first := UpdatesFirst(epoch);
      if (if first then fee1 else fee2).activationEpoch <= epoch {
        r := SetFeesToCurrent(epoch);
      } else {
        r := Ok(());
      }
    }

    method Request(u: Update, epoch: U64) returns (r: Result<()>)
      modifies this
      ensures match FeesSpec.Request(old(State()), u, epoch)
        case Ok(c) => r.Ok? && State() == c
        case Err(e) => r == Err(e)
    {
      if u.blockEngineBps.Some? {
        blockEngineBps := u.blockEngineBps.value;
      }
      if u.baseWallet.Some? {
        wallets := wallets[u.BaseGroup() := u.baseWallet.value];
      }
      if u.baseBps.Some? {
        var _ :- SetBaseFeeBps(u.BaseGroup(), u.baseBps.value, epoch);
      }
      if u.ncnBps.Some? {
        var _ :- SetNcnFeeBps(u.NcnGroup(), u.ncnBps.value, epoch);
      }
      return Ok(());
    }

    method Schedule(epoch: U64) returns (r: Result<()>)
      modifies this
      ensures match FeesSpec.Schedule(old(State()), epoch)
        case Ok(c) => r.Ok? && State() == c
        case Err(e) => r == Err(e)
    {
      var next :- CheckedAdd64(epoch, 1);
      var first := UpdatesFirst(epoch);
      if first {
        fee1 := fee1.(activationEpoch := next);
      } else {
        fee2 := fee2.(activationEpoch := next);
      }
      var _ :- CheckFeesOkay(epoch);
      var _ :- CheckFeesOkay(next);
      return Ok(());
    }

    method UpdateFeeConfig(u: Update, epoch: U64) returns (r: Result<()>)
      modifies this
      ensures match FeesSpec.UpdateFeeConfig(old(State()), u, epoch)
        case Ok(c) => r.Ok? && State() == c
        case Err(e) => r == Err(e)
    {
      var _ :- Prepare(epoch);
      var _ :- Request(u, epoch);
      r := Schedule(epoch);
    }
  }
}
