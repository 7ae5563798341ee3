/** Per-operator routing: it never gets stuck on a fixed snapshot, pays exact floored shares, and is
    stuck for good if the snapshot grows under an interrupted run. */
module NcnRewardRouterProofs {
  import opened Common
  import opened Sums
  import opened FlooredShares
  import opened StakeWeight
  import opened FeesSpec
  import opened EpochSnapshotSpec
  import opened EpochSnapshotProofs
  import opened NcnRewardRouterSpec
  import opened NcnRewardRouterChunks
  import Base = BaseRewardRouterSpec
  import BaseProofs = BaseRewardRouterProofs

  function RouteRewards(routes: seq<VaultRoute>): (r: seq<nat>)
    ensures |r| == |routes|
  {
    seq(|routes|, i requires 0 <= i < |routes| => routes[i].rewards)
  }

  /** Every processed lamport belongs to the operator or to one vault. */
  ghost predicate Balanced(b: Books) {
    b.processed == b.operatorRewards + Sum(RouteRewards(b.routes))
  }

  ghost function Vaults(delegations: seq<Delegation>): set<Key> {
    set i | 0 <= i < |delegations| && delegations[i] != EMPTY_DELEGATION :: delegations[i].vault
  }

  ghost predicate RoutesOk(routes: seq<VaultRoute>, vaults: set<Key>) {
    && |routes| == MAX_VAULTS
    && (forall i :: 0 <= i < |routes| ==>
         routes[i] == EMPTY_ROUTE || (routes[i].vault != DEFAULT_KEY && routes[i].vault in vaults))
    && (forall i, j :: 0 <= i < j < |routes| && routes[i].vault == routes[j].vault ==> routes[i] == EMPTY_ROUTE)
  }

  function Owed(routes: seq<VaultRoute>, vault: Key): nat {
    var r := FindRoute(routes, vault, 0);
    if r < |routes| then routes[r].rewards else 0
  }

  lemma {:induction false} RouteRewardsUpdate(routes: seq<VaultRoute>, i: nat, route: VaultRoute)
    requires i < |routes|
    ensures Sum(RouteRewards(routes[i := route])) + routes[i].rewards == Sum(RouteRewards(routes)) + route.rewards
  {
    assert RouteRewards(routes[i := route]) == RouteRewards(routes)[i := route.rewards];
    SumUpdate(RouteRewards(routes), i, route.rewards);
  }

  lemma {:induction false} RoomForVault(routes: VaultRouteTable, delegations: DelegationTable, vault: Key)
    requires RoutesOk(routes, Vaults(delegations))
    requires vault in Vaults(delegations) && FindRoute(routes, vault, 0) == |routes|
    ensures FindRoute(routes, DEFAULT_KEY, 0) < |routes|
  {
    if FindRoute(routes, DEFAULT_KEY, 0) == |routes| {
      var keys := seq(|routes|, i requires 0 <= i < |routes| => routes[i].vault);
      var all := seq(|delegations|, i requires 0 <= i < |delegations| => delegations[i].vault);
      forall k | k in Vaults(delegations) ensures k in all {
        var i :| 0 <= i < |delegations| && delegations[i].vault == k;
        assert all[i] == k;
      }
      MembersWithinLength(all, Vaults(delegations));
      DistinctWithin(keys, Vaults(delegations) - {vault});
    }
  }

  lemma {:induction false} SameVaultsSameRoute(routes: seq<VaultRoute>, routes': seq<VaultRoute>, vault: Key)
    requires |routes| == |routes'|
    requires forall i :: 0 <= i < |routes| ==> (routes[i].vault == vault <==> routes'[i].vault == vault)
    ensures FindRoute(routes, vault, 0) == FindRoute(routes', vault, 0)
  {
    var r := FindRoute(routes, vault, 0);
    assert r < |routes| ==> routes'[r].vault == vault;
  }

  /** Writing slot `r` for a vault that had it, or for a new vault in the first empty slot. */
  lemma {:induction false} SetRoute(routes: VaultRouteTable, vaults: set<Key>, r: nat, vault: Key, rewards: U64)
    requires RoutesOk(routes, vaults) && vault in vaults && vault != DEFAULT_KEY && r < |routes|
    requires routes[r].vault == vault || (routes[r].vault == DEFAULT_KEY && FindRoute(routes, vault, 0) == |routes|)
    ensures var routes' := routes[r := VaultRoute(vault, rewards)];
      && RoutesOk(routes', vaults)
      && Sum(RouteRewards(routes')) + routes[r].rewards == Sum(RouteRewards(routes)) + rewards
      && forall k :: k != DEFAULT_KEY ==> Owed(routes', k) == if k == vault then rewards else Owed(routes, k)
  {
    var routes' := routes[r := VaultRoute(vault, rewards)];
    RouteRewardsUpdate(routes, r, routes'[r]);
    forall k | k != DEFAULT_KEY && k != vault ensures FindRoute(routes', k, 0) == FindRoute(routes, k, 0) {
      SameVaultsSameRoute(routes, routes', k);
    }
    var f := FindRoute(routes', vault, 0);
    assert f <= r && routes'[f].vault == vault;
  }

  lemma {:induction false} ToVaultAdds(b: Books, delegations: DelegationTable, vault: Key, amount: U64)
    requires RoutesOk(b.routes, Vaults(delegations))
    requires vault in Vaults(delegations) && vault != DEFAULT_KEY
    requires Sum(RouteRewards(b.routes)) + amount <= U64_MAX
    ensures ToVault(b, vault, amount).Ok?
    ensures var b' := ToVault(b, vault, amount).value;
      && b' == b.(routes := b'.routes)
      && RoutesOk(b'.routes, Vaults(delegations))
      && Sum(RouteRewards(b'.routes)) == Sum(RouteRewards(b.routes)) + amount
      && forall k :: k != DEFAULT_KEY ==> Owed(b'.routes, k) == Owed(b.routes, k) + if k == vault then amount else 0
  {
    if amount > 0 {
      var r := FindRoute(b.routes, vault, 0);
      if r < |b.routes| {
        SumAtLeast(RouteRewards(b.routes), r);
        SetRoute(b.routes, Vaults(delegations), r, vault, b.routes[r].rewards + amount);
      } else {
        RoomForVault(b.routes, delegations, vault);
        SetRoute(b.routes, Vaults(delegations), FindRoute(b.routes, DEFAULT_KEY, 0), vault, amount);
      }
    }
  }

  // ------------------------------------------------------------------
  // Shares of the vaults
  // ------------------------------------------------------------------

  function VaultWeights(o: OperatorSnapshot, group: Group): (r: seq<nat>)
    ensures |r| == MAX_VAULTS
  {
    seq(MAX_VAULTS, i requires 0 <= i < MAX_VAULTS => o.delegations[i].weights.groups[group])
  }

  function VaultShares(o: OperatorSnapshot, group: Group, rewards: nat): (r: seq<nat>)
    ensures |r| == MAX_VAULTS
  {
    Shares(rewards, VaultWeights(o, group), o.weights.groups[group])
  }

  /** The snapshot's group weight is the sum of its delegations' weights. */
  lemma {:induction false} WeightsBacked(o: OperatorSnapshot, group: Group)
    requires OperatorOk(o)
    ensures Sum(VaultWeights(o, group)) == o.weights.groups[group]
  {
    assert VaultWeights(o, group) == Delegated(o.delegations, GroupStake(group));
    assert o.weights.Amount(GroupStake(group)) == Sum(Delegated(o.delegations, GroupStake(group)));
  }

  lemma {:induction false} VaultSharesFit(o: OperatorSnapshot, group: Group, rewards: nat, i: nat)
    requires OperatorOk(o) && i <= MAX_VAULTS
    ensures Sum(VaultShares(o, group, rewards)[..i]) <= rewards
    ensures i < MAX_VAULTS ==> Sum(VaultShares(o, group, rewards)[..i]) + VaultShares(o, group, rewards)[i] <= rewards
  {
    var shares := VaultShares(o, group, rewards);
    WeightsBacked(o, group);
    SharesFit(rewards, VaultWeights(o, group), o.weights.groups[group]);
    SumOfPrefix(shares, i);
    if i < MAX_VAULTS {
      SumPrefix(shares, i);
      SumOfPrefix(shares, i + 1);
    }
  }

  /** Before slot `i` of a run over `rewards`: the pool holds what the earlier vaults left. */
  ghost predicate InVaults(b: Books, o: OperatorSnapshot, group: Group, i: nat, rewards: nat) {
    && i <= MAX_VAULTS
    && Balanced(b) && RoutesOk(b.routes, Vaults(o.delegations))
    && b.pool + b.processed <= U64_MAX
    && b.pool + Sum(VaultShares(o, group, rewards)[..i]) == rewards
  }

  lemma {:induction false} CheckedVaultShare(o: OperatorSnapshot, group: Group, i: nat, rewards: U64)
    requires OperatorOk(o) && i < MAX_VAULTS
    ensures VaultShare(rewards, o.delegations[i].weights.groups[group], o.weights.groups[group])
         == Ok(VaultShares(o, group, rewards)[i])
  {
    VaultSharesFit(o, group, rewards, i);
    var w := VaultWeights(o, group)[i];
    if rewards == 0 {
      assert 0 * w == 0;
    }
  }

  lemma {:induction false} EmptySlotHasNoShare(o: OperatorSnapshot, group: Group, i: nat, rewards: nat)
    requires i < MAX_VAULTS && o.delegations[i] == EMPTY_DELEGATION
    ensures VaultShares(o, group, rewards)[i] == 0
  {
    assert VaultWeights(o, group)[i] == 0;
    assert rewards * 0 == 0;
  }

  /** Paying one vault succeeds exactly when the pool still covers its floored share. */
  lemma {:induction false} PayVaultExactly(b: Books, o: OperatorSnapshot, group: Group, i: nat, rewards: U64)
    requires OperatorOk(o) && i < MAX_VAULTS
    requires Balanced(b) && RoutesOk(b.routes, Vaults(o.delegations)) && b.pool + b.processed <= U64_MAX
    ensures PayVault(b, o, group, i, rewards).Ok? <==> VaultShares(o, group, rewards)[i] <= b.pool
    ensures PayVault(b, o, group, i, rewards).Ok? ==>
      var b' := PayVault(b, o, group, i, rewards).value;
      var share := VaultShares(o, group, rewards)[i];
      && Balanced(b') && RoutesOk(b'.routes, Vaults(o.delegations))
      && b'.pool == b.pool - share && b'.processed == b.processed + share
      && b'.total == b.total && b'.operatorRewards == b.operatorRewards
      && forall k :: k != DEFAULT_KEY ==>
         Owed(b'.routes, k) == Owed(b.routes, k) + if k == o.delegations[i].vault then share else 0
  {
    var share := VaultShares(o, group, rewards)[i];
    CheckedVaultShare(o, group, i, rewards);
    if share <= b.pool {
      var b1 := FromPool(b, share).value;
      if o.delegations[i] == EMPTY_DELEGATION {
        EmptySlotHasNoShare(o, group, i, rewards);
      } else {
        assert o.delegations[i].vault in Vaults(o.delegations);
        ToVaultAdds(b1, o.delegations, o.delegations[i].vault, share);
      }
    }
  }

  /** On the snapshot a run started with, the pool always covers the next share. */
  lemma {:induction false} PayVaultSucceeds(b: Books, o: OperatorSnapshot, group: Group, i: nat, rewards: U64)
    requires OperatorOk(o) && InVaults(b, o, group, i, rewards) && i < MAX_VAULTS
    ensures PayVault(b, o, group, i, rewards).Ok?
    ensures var b' := PayVault(b, o, group, i, rewards).value;
      var share := VaultShares(o, group, rewards)[i];
      && InVaults(b', o, group, i + 1, rewards)
      && b'.total == b.total && b'.operatorRewards == b.operatorRewards
      && b'.pool + b'.processed == b.pool + b.processed
      && forall k :: k != DEFAULT_KEY ==>
         Owed(b'.routes, k) == Owed(b.routes, k) + if k == o.delegations[i].vault then share else 0
  {
    VaultSharesFit(o, group, rewards, i);
    SumPrefix(VaultShares(o, group, rewards), i);
    PayVaultExactly(b, o, group, i, rewards);
  }

  /** What the delegations from slot `i` on bring a vault. */
  function PaidFrom(o: OperatorSnapshot, shares: seq<nat>, vault: Key, i: nat): nat
    requires |shares| == MAX_VAULTS
    decreases MAX_VAULTS - i
  {
    if i >= MAX_VAULTS then 0
    else (if o.delegations[i].vault == vault then shares[i] else 0) + PaidFrom(o, shares, vault, i + 1)
  }

  /** The unlimited loop in closed form. */
  lemma {:induction false} DrainVaultsPays(b: Books, o: OperatorSnapshot, group: Group, i: nat, rewards: U64)
    requires OperatorOk(o) && InVaults(b, o, group, i, rewards)
    ensures DrainVaults(b, o, group, i, rewards).Ok?
    ensures var b' := DrainVaults(b, o, group, i, rewards).value;
      && InVaults(b', o, group, MAX_VAULTS, rewards)
      && b'.total == b.total && b'.operatorRewards == b.operatorRewards
      && b'.pool + b'.processed == b.pool + b.processed
      && forall k :: k != DEFAULT_KEY ==>
         Owed(b'.routes, k) == Owed(b.routes, k) + PaidFrom(o, VaultShares(o, group, rewards), k, i)
    decreases MAX_VAULTS - i
  {
    if i < MAX_VAULTS {
      PayVaultSucceeds(b, o, group, i, rewards);
      DrainVaultsPays(PayVault(b, o, group, i, rewards).value, o, group, i + 1, rewards);
    }
  }

  /** A run of the loop that did not fail, and moved nothing but what leaves the pool. */
  ghost predicate VaultsRouted(b: Books, o: OperatorSnapshot, group: Group, rewards: nat, outcome: Result<Outcome>) {
    match outcome
    case Err(_) => false
    case Ok(Finished(b')) => InVaults(b', o, group, MAX_VAULTS, rewards) && SamePurse(b, b')
    case Ok(Paused(b', cursor)) => InVaults(b', o, group, cursor.slot, rewards) && SamePurse(b, b')
  }

  predicate SamePurse(b: Books, b': Books) {
    b'.total == b.total && b'.pool + b'.processed == b.pool + b.processed
  }

  lemma {:induction false} VaultsRoutedFrom(b: Books, b1: Books, o: OperatorSnapshot, group: Group, rewards: nat,
                                            outcome: Result<Outcome>)
    requires SamePurse(b, b1) && VaultsRouted(b1, o, group, rewards, outcome)
    ensures VaultsRouted(b, o, group, rewards, outcome)
  {
  }

  lemma {:induction false} RouteVaultsSucceeds(b: Books, o: OperatorSnapshot, group: Group, i: nat, rewards: U64,
                                               iterations: nat, max: nat)
    requires OperatorOk(o) && InVaults(b, o, group, i, rewards)
    requires iterations <= max <= U16_MAX && iterations <= i
    ensures VaultsRouted(b, o, group, rewards, RouteVaults(b, o, group, i, rewards, iterations, max))
    decreases MAX_VAULTS - i
  {
    if i < MAX_VAULTS && iterations + 1 <= max {
      PayVaultSucceeds(b, o, group, i, rewards);
      var b1 := PayVault(b, o, group, i, rewards).value;
      RouteVaultsSucceeds(b1, o, group, i + 1, rewards, iterations + 1, max);
      VaultsRoutedFrom(b, b1, o, group, rewards, RouteVaults(b1, o, group, i + 1, rewards, iterations + 1, max));
    }
  }

  /** The router between instructions, whatever happened to the snapshot. */
  ghost predicate BooksOk(r: Router, o: OperatorSnapshot) {
    && Balanced(r.books) && RoutesOk(r.books.routes, Vaults(o.delegations))
    && r.books.pool + r.books.processed <= r.books.total
    && (!r.StillRouting() ==> r.books.pool == 0)
    && InRun(r)
  }

  /** An interrupted run that can go on: the snapshot is the one it started with. */
  ghost predicate CanResume(r: Router, o: OperatorSnapshot, group: Group) {
    r.StillRouting() ==> InVaults(r.books, o, group, r.cursor.slot, r.cursor.rewards)
  }

  lemma {:induction false} NewRouterOk(o: OperatorSnapshot, group: Group)
    ensures BooksOk(NEW_ROUTER, o) && CanResume(NEW_ROUTER, o, group)
  {
    SumZero(RouteRewards(NEW_BOOKS.routes));
  }

  /** A pool filled and not yet split is the start of a run. */
  lemma {:induction false} StartOfRun(b: Books, o: OperatorSnapshot, group: Group)
    requires Balanced(b) && RoutesOk(b.routes, Vaults(o.delegations)) && b.pool + b.processed <= U64_MAX
    ensures InVaults(b, o, group, 0, b.pool)
  {
    assert VaultShares(o, group, b.pool)[..0] == [];
  }

  lemma {:induction false} RouteRewardPoolSucceeds(r: Router, o: OperatorSnapshot, group: Group, maxIterations: U16)
    requires OperatorOk(o) && InRun(r)
    requires Balanced(r.books) && RoutesOk(r.books.routes, Vaults(o.delegations))
    requires r.books.pool + r.books.processed <= r.books.total
    requires CanResume(r, o, group)
    ensures RouteRewardPool(r, o, group, maxIterations).Ok?
    ensures var r' := RouteRewardPool(r, o, group, maxIterations).value;
      && BooksOk(r', o) && CanResume(r', o, group)
      && r'.books.total == r.books.total
      && r'.books.pool + r'.books.processed == r.books.pool + r.books.processed
  {
    var (rewards, i) := ResumePoint(r);
    if !r.StillRouting() {
      StartOfRun(r.books, o, group);
    }
    if rewards != 0 {
      RouteVaultsSucceeds(r.books, o, group, i, rewards, 0, Base.AtLeastOne(maxIterations));
      RouteVaultsIsDrain(r.books, o, group, i, rewards, 0, Base.AtLeastOne(maxIterations));
    }
  }

  /** The operator's own fee fits the pool because fees are at most the whole. */
  lemma {:induction false} RouteOperatorSucceeds(b: Books, o: OperatorSnapshot)
    requires Balanced(b) && b.pool + b.processed <= U64_MAX && o.feeBps <= MAX_BPS
    ensures RouteOperator(b, o).Ok?
    ensures var b' := RouteOperator(b, o).value;
      var fee := Share(b.pool, o.feeBps, MAX_BPS);
      && Balanced(b') && fee <= b.pool
      && b' == b.(pool := b.pool - fee, processed := b.processed + fee, operatorRewards := b.operatorRewards + fee)
  {
    SumConcat([], [o.feeBps as nat]);
    assert [] + [o.feeBps as nat] == [o.feeBps as nat];
    SharesFit(b.pool, [o.feeBps as nat], MAX_BPS);
    var shares := Shares(b.pool, [o.feeBps as nat], MAX_BPS);
    SumAtLeast(shares, 0);
    assert shares[0] == Share(b.pool, o.feeBps, MAX_BPS);
    BaseProofs.CheckedShareIsShare(b.pool, o.feeBps, MAX_BPS);
  }

  /** Routing never gets stuck on a fixed snapshot: the instruction succeeds unless the lamports ever
      received overflow 64 bits, and it can always be resumed. */
  lemma {:induction false} RouteNcnSucceeds(r: Router, o: OperatorSnapshot, group: Group, rent: U64, balance: U64,
                                            maxIterations: U16)
    requires OperatorOk(o) && o.feeBps <= MAX_BPS
    requires BooksOk(r, o) && CanResume(r, o, group)
    requires balance >= rent + r.books.pool + r.books.processed
    ensures RouteNcn(r, o, group, rent, balance, maxIterations).Ok?
       <==> r.StillRouting() || r.books.total + (balance - r.books.processed - rent) <= U64_MAX
    ensures RouteNcn(r, o, group, rent, balance, maxIterations).Ok? ==>
      var r' := RouteNcn(r, o, group, rent, balance, maxIterations).value;
      var incoming := if r.StillRouting() then 0 else balance - r.books.processed - rent;
      && BooksOk(r', o) && CanResume(r', o, group)
      && r'.books.total as int == r.books.total + incoming
      && r'.books.pool + r'.books.processed as int == r.books.pool + r.books.processed + incoming
  {
    if r.StillRouting() {
      RouteRewardPoolSucceeds(r, o, group, maxIterations);
    } else {
      var incoming := balance - r.books.processed - rent;
      if r.books.total + incoming <= U64_MAX {
        var b1 := RouteIncoming(r.books, rent, balance).value;
        RouteOperatorSucceeds(b1, o);
        RouteRewardPoolSucceeds(r.(books := RouteOperator(b1, o).value), o, group, maxIterations);
      }
    }
  }

  /** Whatever the snapshot, a run of the loop that succeeds keeps the books in order. */
  lemma {:induction false} RouteVaultsKeepsBooks(b: Books, o: OperatorSnapshot, group: Group, i: nat, rewards: U64,
                                                 iterations: nat, max: nat)
    requires OperatorOk(o) && i <= MAX_VAULTS
    requires Balanced(b) && RoutesOk(b.routes, Vaults(o.delegations)) && b.pool + b.processed <= U64_MAX
    requires RouteVaults(b, o, group, i, rewards, iterations, max).Ok?
    ensures var b' := RouteVaults(b, o, group, i, rewards, iterations, max).value.books;
      Balanced(b') && RoutesOk(b'.routes, Vaults(o.delegations)) && SamePurse(b, b')
    decreases MAX_VAULTS - i
  {
    if i < MAX_VAULTS && iterations < U16_MAX && iterations + 1 <= max {
      PayVaultExactly(b, o, group, i, rewards);
      RouteVaultsKeepsBooks(PayVault(b, o, group, i, rewards).value, o, group, i + 1, rewards, iterations + 1, max);
    }
  }

  lemma {:induction false} SweepKeepsBooks(b: Books, vaults: set<Key>)
    requires Balanced(b) && RoutesOk(b.routes, vaults) && Sweep(b).Ok?
    ensures var b' := Sweep(b).value; Balanced(b') && RoutesOk(b'.routes, vaults) && SamePurse(b, b') && b'.pool == 0
  {
  }

  /** The same for a whole call that goes on with an interrupted run. */
  lemma {:induction false} ResumedCallKeepsBooks(r: Router, o: OperatorSnapshot, group: Group, maxIterations: U16)
    requires OperatorOk(o) && BooksOk(r, o) && r.StillRouting()
    requires RouteRewardPool(r, o, group, maxIterations).Ok?
    ensures var r' := RouteRewardPool(r, o, group, maxIterations).value; BooksOk(r', o) && SamePurse(r.books, r'.books)
  {
    var max := Base.AtLeastOne(maxIterations);
    RouteVaultsKeepsBooks(r.books, o, group, r.cursor.slot, r.cursor.rewards, 0, max);
    RouteVaultsIsDrain(r.books, o, group, r.cursor.slot, r.cursor.rewards, 0, max);
    var outcome := RouteVaults(r.books, o, group, r.cursor.slot, r.cursor.rewards, 0, max).value;
    if outcome.Finished? {
      SweepKeepsBooks(outcome.books, Vaults(o.delegations));
    }
  }

  // ------------------------------------------------------------------
  // A completed round
  // ------------------------------------------------------------------

  /** A round carried to its end: the operator's fee, the exact floored shares, and the remainder to
      the operator; nothing stays in the pool. */
  ghost predicate RoundCompleted(b: Books, b': Books, o: OperatorSnapshot, group: Group, incoming: nat) {
    var fee := Share(incoming, o.feeBps, MAX_BPS);
    && fee <= incoming
    && var shares := VaultShares(o, group, incoming - fee);
    && b'.pool == 0
    && (forall k :: k != DEFAULT_KEY ==> Owed(b'.routes, k) == Owed(b.routes, k) + PaidFrom(o, shares, k, 0))
    && Sum(shares) <= incoming - fee
    && b'.operatorRewards as int == b.operatorRewards + fee + (incoming - fee - Sum(shares))
  }

  /** The first half of a fresh instruction: what came in enters the pool, the fee leaves it. */
  lemma {:induction false} IncomingAndFee(b: Books, o: OperatorSnapshot, rent: U64, balance: U64, incoming: nat)
    returns (b2: Books)
    requires Balanced(b) && b.pool == 0 && b.processed <= b.total && o.feeBps <= MAX_BPS
    requires balance == rent + b.processed + incoming
    requires b.total + incoming <= U64_MAX
    ensures RouteIncoming(b, rent, balance).Ok? && RouteOperator(RouteIncoming(b, rent, balance).value, o) == Ok(b2)
    ensures var fee := Share(incoming, o.feeBps, MAX_BPS);
      && fee <= incoming
      && b2.pool as int == incoming - fee && b2.operatorRewards as int == b.operatorRewards + fee
      && b2.routes == b.routes && b2.total as int == b.total + incoming
      && Balanced(b2) && b2.pool + b2.processed <= b2.total
  {
    var b1 := RouteIncoming(b, rent, balance).value;
    assert b1.pool == incoming;
    RouteOperatorSucceeds(b1, o);
    b2 := RouteOperator(b1, o).value;
  }

  /** Exact shares: a round routed to its end, in however many calls, is a completed round on what
      came in since the last one. */
  lemma {:induction false} CompletedRound(r: Router, o: OperatorSnapshot, group: Group, rent: U64, balance: U64,
                                          incoming: nat)
    returns (b: Books)
    requires OperatorOk(o) && o.feeBps <= MAX_BPS
    requires BooksOk(r, o) && r.cursor == IDLE
    requires balance == rent + r.books.processed + incoming
    requires r.books.total + incoming <= U64_MAX
    ensures RouteNcn(r, o, group, rent, balance, U16_MAX) == Ok(Router(b, IDLE))
    ensures RoundCompleted(r.books, b, o, group, incoming)
  {
    var b2 := IncomingAndFee(r.books, o, rent, balance, incoming);
    b := DrainedPool(Router(b2, IDLE), o, group);
    FreshCall(r, o, group, rent, balance, b2);
    FeeThenShares(r.books, b2, b, o, group, incoming);
  }

  /** The fee and the drained pool make up the round. */
  lemma {:induction false} FeeThenShares(b: Books, b2: Books, b': Books, o: OperatorSnapshot, group: Group,
                                         incoming: nat)
    requires var fee := Share(incoming, o.feeBps, MAX_BPS);
      && fee <= incoming && b2.pool as int == incoming - fee
      && b2.operatorRewards as int == b.operatorRewards + fee && b2.routes == b.routes
    requires var shares := VaultShares(o, group, b2.pool);
      && b'.pool == 0 && Sum(shares) <= b2.pool
      && b'.operatorRewards as int == b2.operatorRewards + (b2.pool - Sum(shares))
      && forall k :: k != DEFAULT_KEY ==> Owed(b'.routes, k) == Owed(b2.routes, k) + PaidFrom(o, shares, k, 0)
    ensures RoundCompleted(b, b', o, group, incoming)
  {
  }

  lemma {:induction false} FreshCall(r: Router, o: OperatorSnapshot, group: Group, rent: U64, balance: U64, b: Books)
    requires r.cursor == IDLE
    requires RouteIncoming(r.books, rent, balance).Ok?
    requires RouteOperator(RouteIncoming(r.books, rent, balance).value, o) == Ok(b)
    ensures RouteNcn(r, o, group, rent, balance, U16_MAX) == RouteRewardPool(Router(b, IDLE), o, group, U16_MAX)
  {
  }

  lemma {:induction false} DrainedPool(r: Router, o: OperatorSnapshot, group: Group) returns (b: Books)
    requires OperatorOk(o) && Balanced(r.books) && RoutesOk(r.books.routes, Vaults(o.delegations))
    requires r.books.pool + r.books.processed <= U64_MAX && r.cursor == IDLE
    ensures RouteRewardPool(r, o, group, U16_MAX) == Ok(Router(b, IDLE))
    ensures var shares := VaultShares(o, group, r.books.pool);
      && b.pool == 0 && Sum(shares) <= r.books.pool
      && b.operatorRewards as int == r.books.operatorRewards + (r.books.pool - Sum(shares))
      && forall k :: k != DEFAULT_KEY ==> Owed(b.routes, k) == Owed(r.books.routes, k) + PaidFrom(o, shares, k, 0)
  {
    var rewards := r.books.pool;
    var shares := VaultShares(o, group, rewards);
    StartOfRun(r.books, o, group);
    DrainVaultsPays(r.books, o, group, 0, rewards);
    assert shares[..MAX_VAULTS] == shares;
    if rewards == 0 {
      b := r.books;
      SumZero(shares);
      forall k ensures PaidFrom(o, shares, k, 0) == 0 {
        PaidNothing(o, shares, k, 0);
      }
    } else {
      RouteVaultsIsDrain(r.books, o, group, 0, rewards, 0, U16_MAX);
      b := Sweep(DrainVaults(r.books, o, group, 0, rewards).value).value;
    }
  }

  lemma {:induction false} PaidNothing(o: OperatorSnapshot, shares: seq<nat>, vault: Key, i: nat)
    requires |shares| == MAX_VAULTS && forall j :: 0 <= j < MAX_VAULTS ==> shares[j] == 0
    ensures PaidFrom(o, shares, vault, i) == 0
    decreases MAX_VAULTS - i
  {
    if i < MAX_VAULTS {
      PaidNothing(o, shares, vault, i + 1);
    }
  }

  /** The remainder that goes to the operator: less than one lamport per delegation with weight in
      the group, or everything when there is none. */
  lemma {:induction false} RemainderBound(o: OperatorSnapshot, group: Group, rewards: nat)
    requires OperatorOk(o)
    ensures Sum(VaultShares(o, group, rewards)) <= rewards
    ensures o.weights.groups[group] == 0 ==> Sum(VaultShares(o, group, rewards)) == 0
    ensures o.weights.groups[group] > 0 ==>
      rewards - Sum(VaultShares(o, group, rewards)) < Sum(Positive(VaultWeights(o, group)))
  {
    WeightsBacked(o, group);
    SharesFit(rewards, VaultWeights(o, group), o.weights.groups[group]);
    if o.weights.groups[group] == 0 {
      SumZero(VaultShares(o, group, rewards));
    } else {
      ShareDust(rewards, VaultWeights(o, group), o.weights.groups[group]);
    }
  }

  // ------------------------------------------------------------------
  // A snapshot that grows under an interrupted run
  // ------------------------------------------------------------------

  lemma {:induction false} SumSuffix(s: seq<nat>, i: nat)
    requires i < |s|
    ensures Sum(s[i..]) == s[i] + Sum(s[i + 1..])
  {
    assert s[i..] == [s[i]] + s[i + 1..];
    SumConcat([s[i]], s[i + 1..]);
    assert [s[i]][..0] == [];
  }

  lemma {:induction false} DrainVaultsExactly(b: Books, o: OperatorSnapshot, group: Group, i: nat, rewards: U64)
    requires OperatorOk(o) && i <= MAX_VAULTS
    requires Balanced(b) && RoutesOk(b.routes, Vaults(o.delegations)) && b.pool + b.processed <= U64_MAX
    ensures DrainVaults(b, o, group, i, rewards).Ok? <==> Sum(VaultShares(o, group, rewards)[i..]) <= b.pool
    ensures DrainVaults(b, o, group, i, rewards).Ok? ==>
      var b' := DrainVaults(b, o, group, i, rewards).value;
      Balanced(b') && b'.pool + b'.processed == b.pool + b.processed
    decreases MAX_VAULTS - i
  {
    if i < MAX_VAULTS {
      SumSuffix(VaultShares(o, group, rewards), i);
      PayVaultExactly(b, o, group, i, rewards);
      var paid := PayVault(b, o, group, i, rewards);
      if paid.Ok? {
        DrainVaultsExactly(paid.value, o, group, i + 1, rewards);
      }
    }
  }

  /** Nothing in the program stops a snapshot from growing while a run over it is interrupted. On
      whatever snapshot it then finds, the run can be carried to its end exactly when the pool covers
      the floored shares of the slots still to come, computed on the new totals. */
  lemma {:induction false} InterruptedRunEndsExactly(r: Router, o: OperatorSnapshot, group: Group)
    requires OperatorOk(o) && BooksOk(r, o) && r.StillRouting()
    ensures RouteRewardPool(r, o, group, U16_MAX).Ok?
       <==> Sum(VaultShares(o, group, r.cursor.rewards)[r.cursor.slot..]) <= r.books.pool
  {
    DrainVaultsExactly(r.books, o, group, r.cursor.slot, r.cursor.rewards);
    RouteVaultsIsDrain(r.books, o, group, r.cursor.slot, r.cursor.rewards, 0, U16_MAX);
  }

  const ONE_STAKE := StakeWeights(1, ZERO_WEIGHTS.groups[0 := 1])
  const FIRST_VAULT := Delegation(11, 0, 0, ONE_STAKE)
  const SECOND_VAULT := Delegation(12, 1, 0, ONE_STAKE)

  /** An active operator without a fee that expects two delegations of the same weight. */
  function TwoExpected(operator: Key, slot: U64): OperatorSnapshot {
    InitOperator(operator, 0, true, 0, 2, slot).value
  }

  lemma {:induction false} FirstRegistered(operator: Key, slot: U64) returns (first: OperatorSnapshot)
    ensures RegisterDelegation(TwoExpected(operator, slot), slot, FIRST_VAULT) == Ok(first)
    ensures OperatorOk(first) && !first.Finalized() && first.registered == 1 && first.feeBps == 0
    ensures first.delegations == TwoExpected(operator, slot).delegations[0 := FIRST_VAULT]
    ensures first.weights.total == 1 && first.weights.groups[0] == 1
  {
    InitOperatorOk(operator, 0, true, 0, 2, slot);
    RegisterDelegationKeeps(TwoExpected(operator, slot), slot, FIRST_VAULT);
    first := RegisterDelegation(TwoExpected(operator, slot), slot, FIRST_VAULT).value;
  }

  lemma {:induction false} SecondRegistered(operator: Key, slot: U64)
    returns (first: OperatorSnapshot, second: OperatorSnapshot)
    ensures RegisterDelegation(TwoExpected(operator, slot), slot, FIRST_VAULT) == Ok(first)
    ensures RegisterDelegation(first, slot, SECOND_VAULT) == Ok(second)
    ensures OperatorOk(second) && second.Finalized() && second.weights.total == 2 && second.weights.groups[0] == 2
    ensures second.delegations == first.delegations[1 := SECOND_VAULT]
  {
    first := FirstRegistered(operator, slot);
    RegisterDelegationKeeps(first, slot, SECOND_VAULT);
    second := RegisterDelegation(first, slot, SECOND_VAULT).value;
  }

  /** The first vault takes the whole pool of 10, and a limit of 1 interrupts the run there. */
  lemma {:induction false} PausedAfterFirst(first: OperatorSnapshot, rent: U64) returns (paused: Router)
    requires first.feeBps == 0 && first.weights.groups[0] == 1 && first.delegations[0] == FIRST_VAULT
    requires rent + 10 <= U64_MAX
    ensures RouteNcn(NEW_ROUTER, first, 0, rent, rent + 10, 1) == Ok(paused)
    ensures paused.cursor == Cursor(10, 1) && paused.books.pool == 0
  {
    var pool := NEW_BOOKS.(total := 10, pool := 10);
    assert RouteIncoming(NEW_BOOKS, rent, rent + 10) == Ok(pool);
    assert RouteOperator(pool, first) == Ok(pool);
    assert FindRoute(pool.routes, 11, 0) == MAX_VAULTS;
    assert FindRoute(pool.routes, DEFAULT_KEY, 0) == 0;
    var paid := PayVault(pool, first, 0, 0, 10).value;
    assert paid.pool == 0;
    assert RouteVaults(paid, first, 0, 1, 10, 1, 1) == Ok(Paused(paid, Cursor(10, 1)));
    paused := Router(paid, Cursor(10, 1));
  }

  lemma {:induction false} NothingLeftForSecond(paused: Router, second: OperatorSnapshot, rent: U64, balance: U64,
                                                maxIterations: U16)
    requires paused.cursor == Cursor(10, 1) && paused.books.pool == 0
    requires second.weights.groups[0] == 2 && second.delegations[1] == SECOND_VAULT
    ensures RouteNcn(paused, second, 0, rent, balance, maxIterations) == Err(ArithmeticUnderflow)
  {
    assert VaultShare(10, 1, 2) == Ok(5);
    assert PayVault(paused.books, second, 0, 1, 10) == Err(ArithmeticUnderflow);
  }

  /** The failing family is not empty. One vault is registered and takes the whole pool of 10; the
      run is interrupted by a limit of 1; a second vault of the same weight is registered. From then
      on every call fails, whatever its limit and however much is deposited. */
  lemma {:induction false} GrowingSnapshotGetsStuck(operator: Key, slot: U64, firstRent: U64, rent: U64, balance: U64,
                                                    maxIterations: U16)
    requires firstRent + 10 <= U64_MAX
    ensures var first := RegisterDelegation(TwoExpected(operator, slot), slot, FIRST_VAULT);
      && first.Ok? && OperatorOk(first.value)
      && var paused := RouteNcn(NEW_ROUTER, first.value, 0, firstRent, firstRent + 10, 1);
      && paused.Ok? && paused.value.StillRouting()
      && var second := RegisterDelegation(first.value, slot, SECOND_VAULT);
      && second.Ok? && second.value.Finalized()
      && RouteNcn(paused.value, second.value, 0, rent, balance, maxIterations) == Err(ArithmeticUnderflow)
  {
    var one := FirstRegistered(operator, slot);
    var paused := PausedAfterFirst(one, firstRent);
    var first, second := SecondRegistered(operator, slot);
    NothingLeftForSecond(paused, second, rent, balance, maxIterations);
  }

  // ------------------------------------------------------------------
  // Paying out
  // ------------------------------------------------------------------

  lemma {:induction false} DistributeOperatorKeeps(r: Router, o: OperatorSnapshot)
    requires BooksOk(r, o) && !r.StillRouting()
    ensures DistributeOperator(r.books).Ok?
    ensures var (b', paid) := DistributeOperator(r.books).value;
      && BooksOk(r.(books := b'), o)
      && paid == r.books.operatorRewards && b'.operatorRewards == 0 && b'.routes == r.books.routes
      && b'.total == r.books.total && b'.pool == r.books.pool && b'.processed + paid == r.books.processed
  {
  }

  lemma {:induction false} DistributeVaultKeeps(r: Router, o: OperatorSnapshot, vault: Key)
    requires BooksOk(r, o) && !r.StillRouting() && vault != DEFAULT_KEY
    ensures DistributeVault(r.books, vault).Ok?
       <==> exists i :: 0 <= i < |r.books.routes| && r.books.routes[i].vault == vault
    ensures DistributeVault(r.books, vault).Ok? ==>
      var (b', paid) := DistributeVault(r.books, vault).value;
      && BooksOk(r.(books := b'), o)
      && paid == Owed(r.books.routes, vault)
      && (forall k :: k != DEFAULT_KEY ==> Owed(b'.routes, k) == if k == vault then 0 else Owed(r.books.routes, k))
      && b'.total == r.books.total && b'.pool == r.books.pool && b'.processed + paid == r.books.processed
      && b'.operatorRewards == r.books.operatorRewards
  {
    var i := FindRoute(r.books.routes, vault, 0);
    if i < |r.books.routes| {
      SumAtLeast(RouteRewards(r.books.routes), i);
      SetRoute(r.books.routes, Vaults(o.delegations), i, vault, 0);
    }
  }
}
