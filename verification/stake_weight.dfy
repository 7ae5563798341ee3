/** Stake weights: one total for voting and one weight per NCN fee group for rewards
    (core/src/stake_weight.rs). */
module StakeWeight {
  import opened Common

  type GroupWeights = s: seq<U128> | |s| == FEE_GROUP_COUNT witness Filled(FEE_GROUP_COUNT, 0)

  /** What a tally can be summed over: heads, total stake, or the stake of one fee group. */
  datatype Measure = Heads | Stake | GroupStake(group: nat)

  datatype StakeWeights = StakeWeights(total: U128, groups: GroupWeights) {
    /** The amount one vote with these weights adds under a measure. */
    function Amount(m: Measure): nat {
      match m
      case Heads => 1
      case Stake => total
      case GroupStake(g) => if g < FEE_GROUP_COUNT then groups[g] else 0
    }
  }

  const ZERO_WEIGHTS := StakeWeights(0, Filled(FEE_GROUP_COUNT, 0))

  /** `snapshot`: one delegation counts its stake once for voting and, scaled by the reward
      multiplier of its mint, once in a single fee group. */
  function Snapshot(group: nat, stake: U128, multiplierBps: U64): (r: Result<StakeWeights>)
    requires group < FEE_GROUP_COUNT
    ensures r.Ok? <==> multiplierBps * stake <= U128_MAX
    ensures r.Ok? ==> r.value.Amount(Stake) == stake
    ensures r.Ok? ==> forall g :: r.value.Amount(GroupStake(g)) == if g == group then multiplierBps * stake else 0
  {
    if multiplierBps * stake > U128_MAX then Err(ArithmeticOverflow)
    else Ok(StakeWeights(stake, ZERO_WEIGHTS.groups[group := multiplierBps * stake]))
  }

  /** No component of the sum leaves 128 bits. */
  predicate AddFits(a: StakeWeights, b: StakeWeights) {
    && a.total + b.total <= U128_MAX
    && forall i :: 0 <= i < FEE_GROUP_COUNT ==> a.groups[i] + b.groups[i] <= U128_MAX
  }

  predicate SubFits(a: StakeWeights, b: StakeWeights) {
    && b.total <= a.total
    && forall i :: 0 <= i < FEE_GROUP_COUNT ==> b.groups[i] <= a.groups[i]
  }

  /** `increment`: checked, component by component. */
  function Add(a: StakeWeights, b: StakeWeights): Result<StakeWeights> {
    if AddFits(a, b)
    then Ok(StakeWeights(a.total + b.total,
                         seq(FEE_GROUP_COUNT, i requires 0 <= i < FEE_GROUP_COUNT => a.groups[i] + b.groups[i])))
    else Err(ArithmeticOverflow)
  }

  /** `decrement`: checked, component by component. */
  function Sub(a: StakeWeights, b: StakeWeights): Result<StakeWeights> {
    if SubFits(a, b)
    then Ok(StakeWeights(a.total - b.total,
                         seq(FEE_GROUP_COUNT, i requires 0 <= i < FEE_GROUP_COUNT => a.groups[i] - b.groups[i])))
    else Err(ArithmeticOverflow)
  }

  /** Taking away what was just added restores every component. */
  lemma {:induction false} AddThenSub(a: StakeWeights, b: StakeWeights)
    requires Add(a, b).Ok?
    ensures Sub(Add(a, b).value, b) == Ok(a)
  {
    var c := Add(a, b).value;
    assert Sub(c, b).value.groups == a.groups;
  }

  /** The loop of `increment`: the total first, then one fee group at a time. */
  method Increment(a: StakeWeights, b: StakeWeights) returns (r: Result<StakeWeights>)
    ensures r == Add(a, b)
  {
    var total :- CheckedAdd128(a.total, b.total);
    var groups: seq<nat> := a.groups;
    for g := 0 to FEE_GROUP_COUNT
      invariant |groups| == FEE_GROUP_COUNT
      invariant forall i :: 0 <= i < g ==> groups[i] == a.groups[i] as nat + b.groups[i] as nat <= U128_MAX
      invariant forall i :: g <= i < |groups| ==> groups[i] == a.groups[i]
    {
      var weight :- CheckedAdd128(groups[g], b.groups[g]);
      groups := groups[g := weight];
    }
    assert AddFits(a, b) && groups == Add(a, b).value.groups;
    r := Ok(StakeWeights(total, groups));
  }

  /** The loop of `decrement`. */
  method Decrement(a: StakeWeights, b: StakeWeights) returns (r: Result<StakeWeights>)
    ensures r == Sub(a, b)
  {
    var total :- CheckedSub(a.total, b.total, ArithmeticOverflow);
    var groups: seq<nat> := a.groups;
    for g := 0 to FEE_GROUP_COUNT
      invariant |groups| == FEE_GROUP_COUNT
      invariant forall i :: 0 <= i < g ==> b.groups[i] <= a.groups[i] && groups[i] == a.groups[i] - b.groups[i]
      invariant forall i :: g <= i < |groups| ==> groups[i] == a.groups[i]
    {
      var weight :- CheckedSub(groups[g], b.groups[g], ArithmeticOverflow);
      groups := groups[g := weight];
    }
    assert SubFits(a, b) && groups == Sub(a, b).value.groups;
    r := Ok(StakeWeights(total, groups));
  }
}
