/** Sums over sequences of naturals: the arithmetic behind every tally, pool and bucket. */
module Sums {

  function Sum(s: seq<nat>): nat {
    if s == [] then 0 else Sum(s[..|s| - 1]) + s[|s| - 1]
  }

  lemma {:induction false} SumSnoc(s: seq<nat>, x: nat)
    ensures Sum(s + [x]) == Sum(s) + x
  {
    assert (s + [x])[..|s|] == s;
  }

  lemma {:induction false} SumPrefix(s: seq<nat>, i: nat)
    requires i < |s|
    ensures Sum(s[..i + 1]) == Sum(s[..i]) + s[i]
  {
    assert s[..i + 1] == s[..i] + [s[i]];
    SumSnoc(s[..i], s[i]);
  }

  lemma {:induction false} SumConcat(a: seq<nat>, b: seq<nat>)
    ensures Sum(a + b) == Sum(a) + Sum(b)
  {
    if b == [] {
      assert a + b == a;
    } else {
      var n := |b| - 1;
      assert (a + b)[..|a + b| - 1] == a + b[..n];
      SumConcat(a, b[..n]);
    }
  }

  /** Overwriting one entry moves the sum by exactly the difference. */
  lemma {:induction false} SumUpdate(s: seq<nat>, i: nat, x: nat)
    requires i < |s|
    ensures Sum(s[i := x]) + s[i] == Sum(s) + x
  {
    var n := |s| - 1;
    if i == n {
      assert s[i := x][..n] == s[..n];
    } else {
      assert s[i := x][..n] == s[..n][i := x];
      SumUpdate(s[..n], i, x);
    }
  }

  lemma {:induction false} SumAtLeast(s: seq<nat>, i: nat)
    requires i < |s|
    ensures s[i] <= Sum(s)
  {
    SumUpdate(s, i, 0);
  }

  lemma {:induction false} SumZero(s: seq<nat>)
    ensures Sum(s) == 0 <==> forall i :: 0 <= i < |s| ==> s[i] == 0
  {
    if s != [] {
      SumZero(s[..|s| - 1]);
      assert forall i :: 0 <= i < |s| - 1 ==> s[..|s| - 1][i] == s[i];
    }
  }

  lemma {:induction false} SumMonotone(a: seq<nat>, b: seq<nat>)
    requires |a| == |b|
    requires forall i :: 0 <= i < |a| ==> a[i] <= b[i]
    ensures Sum(a) <= Sum(b)
  {
    if a != [] {
      SumMonotone(a[..|a| - 1], b[..|b| - 1]);
    }
  }

  lemma {:induction false} SumStrict(a: seq<nat>, b: seq<nat>, i: nat)
    requires |a| == |b| && i < |a| && a[i] < b[i]
    requires forall j :: 0 <= j < |a| ==> a[j] <= b[j]
    ensures Sum(a) < Sum(b)
  {
    SumUpdate(b, i, a[i]);
    SumMonotone(a, b[i := a[i]]);
  }

  lemma {:induction false} SumOfPrefix(s: seq<nat>, i: nat)
    requires i <= |s|
    ensures Sum(s[..i]) <= Sum(s)
  {
    assert s == s[..i] + s[i..];
    SumConcat(s[..i], s[i..]);
  }

  lemma {:induction false} SumPointwise(a: seq<nat>, b: seq<nat>, c: seq<nat>)
    requires |a| == |b| == |c|
    requires forall i :: 0 <= i < |a| ==> c[i] == a[i] + b[i]
    ensures Sum(c) == Sum(a) + Sum(b)
  {
    if a != [] {
      var n := |a| - 1;
      SumPointwise(a[..n], b[..n], c[..n]);
    }
  }

  /** A sum whose terms are dominated, through an injection, by the terms of another. */
  lemma {:induction false} SumInjection(a: seq<nat>, b: seq<nat>, f: seq<nat>)
    requires |f| == |a|
    requires forall i :: 0 <= i < |f| ==> f[i] < |b| && a[i] <= b[f[i]]
    requires forall i, j :: 0 <= i < j < |f| ==> f[i] != f[j]
    ensures Sum(a) <= Sum(b)
  {
    if a != [] {
      var n := |a| - 1;
      var b' := b[f[n] := 0];
      SumUpdate(b, f[n], 0);
      forall i | 0 <= i < n
        ensures a[..n][i] <= b'[f[..n][i]]
      {
        assert f[i] != f[n];
      }
      SumInjection(a[..n], b', f[..n]);
    }
  }

  /** Entries that are 0 or 1 sum to the length only when all are 1. */
  lemma {:induction false} SumOfFlags(s: seq<nat>)
    requires forall i :: 0 <= i < |s| ==> s[i] <= 1
    ensures Sum(s) <= |s|
    ensures Sum(s) == |s| <==> forall i :: 0 <= i < |s| ==> s[i] == 1
  {
    if s != [] {
      var n := |s| - 1;
      SumOfFlags(s[..n]);
      assert forall i :: 0 <= i < n ==> s[..n][i] == s[i];
    }
  }

  /** Flags add up to the number of places where they are up. */
  lemma {:induction false} SumCountsFlags(s: seq<nat>)
    requires forall i :: 0 <= i < |s| ==> s[i] <= 1
    ensures Sum(s) == |set i | 0 <= i < |s| && s[i] == 1|
  {
    var up := set i | 0 <= i < |s| && s[i] == 1;
    if s == [] {
      assert up == {};
    } else {
      var n := |s| - 1;
      var before := set i | 0 <= i < |s[..n]| && s[..n][i] == 1;
      SumCountsFlags(s[..n]);
      assert up == before + (if s[n] == 1 then {n} else {});
    }
  }

  /** Distinct members of a set number at most its size. */
  lemma {:induction false} DistinctWithin(s: seq<nat>, bound: set<nat>)
    requires forall i :: 0 <= i < |s| ==> s[i] in bound
    requires forall i, j :: 0 <= i < j < |s| ==> s[i] != s[j]
    ensures |s| <= |bound|
  {
    if s != [] {
      var n := |s| - 1;
      DistinctWithin(s[..n], bound - {s[n]});
    }
  }

  lemma {:induction false} MembersWithinLength(s: seq<nat>, members: set<nat>)
    requires forall x :: x in members ==> x in s
    ensures |members| <= |s|
  {
    if s == [] {
      assert members == {};
    } else {
      var n := |s| - 1;
      MembersWithinLength(s[..n], members - {s[n]});
    }
  }
}

/** Splitting an amount by floored fractions. The source computes `amount * weight / total`
    with a fixed-point rational type and then floors; here the quotient is exact. */
module FlooredShares {
  import opened Sums

  /** The floored share; a zero total only ever meets a zero weight. */
  function Share(amount: nat, weight: nat, total: nat): (r: nat) {
    if total == 0 then 0 else amount * weight / total
  }

  function Shares(amount: nat, weights: seq<nat>, total: nat): (r: seq<nat>)
    ensures |r| == |weights|
  {
    seq(|weights|, i requires 0 <= i < |weights| => Share(amount, weights[i], total))
  }

  function Positive(weights: seq<nat>): (r: seq<nat>)
    ensures |r| == |weights|
  {
    seq(|weights|, i requires 0 <= i < |weights| => if weights[i] > 0 then 1 else 0)
  }

  lemma {:induction false} DivBounds(n: nat, d: nat)
    requires d > 0
    ensures n / d * d <= n <= n / d * d + d - 1
  {
  }

  lemma {:induction false} MulMonotone(a: nat, b: nat, c: nat)
    requires a <= b
    ensures a * c <= b * c
  {
  }

  lemma {:induction false} Distribute(a: int, b: int, c: int)
    ensures (a + b) * c == a * c + b * c
    ensures c * (a + b) == c * a + c * b
  {
  }

  /** One share more: the scaled bounds add up. */
  lemma {:induction false} ScaledStep(s: nat, q: nat, total: nat, amount: nat, sw: nat, w: nat, p: nat, pw: nat)
    requires total > 0
    requires s * total <= amount * sw <= s * total + p * (total - 1)
    requires q * total <= amount * w <= q * total + pw * (total - 1)
    ensures (s + q) * total <= amount * (sw + w) <= (s + q) * total + (p + pw) * (total - 1)
  {
    Distribute(s, q, total);
    Distribute(sw, w, amount);
    Distribute(p, pw, total - 1);
  }

  lemma {:induction false} ShareBounds(amount: nat, w: nat, total: nat)
    requires total > 0
    ensures Share(amount, w, total) * total <= amount * w
    ensures amount * w <= Share(amount, w, total) * total + (if w > 0 then 1 else 0) * (total - 1)
  {
    DivBounds(amount * w, total);
  }

  /** The floored shares, scaled back up, miss the whole by less than one total per positive weight. */
  lemma {:induction false} SharesScaled(amount: nat, weights: seq<nat>, total: nat)
    requires total > 0
    ensures Sum(Shares(amount, weights, total)) * total <= amount * Sum(weights)
         <= Sum(Shares(amount, weights, total)) * total + Sum(Positive(weights)) * (total - 1)
  {
    if weights == [] {
    } else {
      var n := |weights| - 1;
      SharesScaled(amount, weights[..n], total);
      assert Shares(amount, weights, total)[..n] == Shares(amount, weights[..n], total);
      assert Positive(weights)[..n] == Positive(weights[..n]);
      ShareBounds(amount, weights[n], total);
      ScaledStep(Sum(Shares(amount, weights[..n], total)), Share(amount, weights[n], total), total, amount,
                 Sum(weights[..n]), weights[n], Sum(Positive(weights[..n])), Positive(weights)[n]);
    }
  }

  lemma {:induction false} QuotientBelow(s: nat, amount: nat, total: nat)
    requires total > 0 && s * total <= amount * total
    ensures s <= amount
  {
    if s > amount {
      Distribute(amount, s - amount, total);
    }
  }

  /** Of an amount equal to the total every weight gets exactly itself. */
  lemma {:induction false} WholeShare(w: nat, total: nat)
    requires total > 0
    ensures Share(total, w, total) == w
  {
    var q := Share(total, w, total);
    DivBounds(total * w, total);
    if q < w {
      MulMonotone(q + 1, w, total);
      Distribute(q, 1, total);
    } else if q > w {
      MulMonotone(w + 1, q, total);
      Distribute(w, 1, total);
    }
  }

  lemma {:induction false} WholeShares(weights: seq<nat>, total: nat)
    requires total > 0
    ensures Shares(total, weights, total) == weights
  {
    forall i | 0 <= i < |weights| ensures Shares(total, weights, total)[i] == weights[i] {
      WholeShare(weights[i], total);
    }
  }

  /** Floored shares of weights that fit into the total never exceed the amount. */
  lemma {:induction false} SharesFit(amount: nat, weights: seq<nat>, total: nat)
    requires Sum(weights) <= total
    ensures Sum(Shares(amount, weights, total)) <= amount
  {
    var s := Sum(Shares(amount, weights, total));
    if total == 0 {
      SumZero(Shares(amount, weights, total));
    } else {
      SharesScaled(amount, weights, total);
      MulMonotone(Sum(weights), total, amount);
      QuotientBelow(s, amount, total);
    }
  }

  /** When the weights add up to the total, flooring loses less than one unit per positive weight. */
  lemma {:induction false} ShareDust(amount: nat, weights: seq<nat>, total: nat)
    requires Sum(weights) == total > 0
    ensures Sum(Shares(amount, weights, total)) <= amount
    ensures amount - Sum(Shares(amount, weights, total)) < Sum(Positive(weights))
  {
    SharesFit(amount, weights, total);
    SharesScaled(amount, weights, total);
    var lost, k := amount - Sum(Shares(amount, weights, total)), Sum(Positive(weights));
    Distribute(Sum(Shares(amount, weights, total)), lost, total);
    SumZero(weights);
    SumZero(Positive(weights));
    var i :| 0 <= i < |weights| && weights[i] != 0;
    assert Positive(weights)[i] == 1;
    if lost >= k {
      MulMonotone(k, lost, total);
      Distribute(total - 1, 1, k);
    }
  }
}
