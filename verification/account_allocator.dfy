/** src/components/orders/AccountAllocator.tsx: editing one account's percentage of a
    multi-account order. The edited account takes the clamped value, every other
    account absorbs its share of the difference, and the list is rescaled so that
    the percentages add up to 100. */
module AccountAllocator {
  import opened Prelude
  import opened OrderTypes

  /** `Math.max(0, Math.min(100, p))`. */
  function ClampPercentage(p: real): (r: real)
    ensures 0.0 <= r <= 100.0
    ensures 0.0 <= p <= 100.0 ==> r == p
    ensures p < 0.0 ==> r == 0.0
    ensures p > 100.0 ==> r == 100.0
  {
    Max(0.0, Min(100.0, p))
  }

  /** `{ ...alloc, percentage, shares: percentage / 100 * totalShares, principal: ... }`. */
  function WithPercentage(a: OrderAllocation, pct: real, totalShares: real, totalPrincipal: real): (r: OrderAllocation)
    ensures SameAccount(r, a) && r.percentage == pct && Proportional(r, totalShares, totalPrincipal)
  {
    a.(percentage := pct, shares := PercentOf(pct, totalShares), principal := PercentOf(pct, totalPrincipal))
  }

  /** The total of every account but the edited one (`otherAllocations.reduce`). */
  function OtherTotal(s: seq<OrderAllocation>, index: int): real
    requires 0 <= index < |s|
  {
    TotalPercentage(s[..index] + s[index + 1..])
  }

  lemma OtherTotalIsRest(s: seq<OrderAllocation>, index: int)
    requires 0 <= index < |s|
    ensures OtherTotal(s, index) == TotalPercentage(s) - s[index].percentage
  {
    var x := Percentages(s);
    assert Percentages(s[..index] + s[index + 1..]) == x[..index] + x[index + 1..];
    assert x == x[..index] + [x[index]] + x[index + 1..];
    SumAppend(x[..index], x[index + 1..]);
    SumAppend(x[..index] + [x[index]], x[index + 1..]);
    SumAppend(x[..index], [x[index]]);
    assert Sum([x[index]]) == x[index] + Sum([x[index]][1..]);
  }

  /** The share of the difference that account `i` absorbs: its weight among the other
      accounts, or an equal share when the others hold nothing. */
  function Proportion(s: seq<OrderAllocation>, otherTotal: real, i: int): (w: real)
    requires 0 <= i < |s| && |s| > 1
    ensures s[i].percentage >= 0.0 && otherTotal >= 0.0 ==> w >= 0.0
  {
    if otherTotal > 0.0 then s[i].percentage / otherTotal else 1.0 / (|s| - 1) as real
  }

  /** The percentage an unedited account would take before the floor at 0. */
  function Shifted(s: seq<OrderAllocation>, index: int, newPercentage: real, i: int): (r: real)
    requires 0 <= index < |s| && 0 <= i < |s| && |s| > 1
    ensures s[i].percentage >= 0.0 && OtherTotal(s, index) >= 0.0 && ClampPercentage(newPercentage) >= s[index].percentage ==>
      r <= s[i].percentage
    ensures s[i].percentage >= 0.0 && OtherTotal(s, index) >= 0.0 && ClampPercentage(newPercentage) <= s[index].percentage ==>
      r >= s[i].percentage
  {
    var diff := ClampPercentage(newPercentage) - s[index].percentage;
    Absorbed(s[i].percentage, diff, Proportion(s, OtherTotal(s, index), i))
  }

  /** `alloc.percentage - diff * proportion`. */
  function Absorbed(p: real, diff: real, weight: real): real
  {
    p - diff * weight
  }

  /** Absorbing `diff` with weights that sum to 1 lowers the total by exactly `diff`. */
  lemma AbsorbedTotal(x: seq<real>, w: seq<real>, y: seq<real>, diff: real)
    requires |x| == |w| == |y| && Sum(w) == 1.0
    requires forall i :: 0 <= i < |y| ==> y[i] == Absorbed(x[i], diff, w[i])
    ensures Sum(y) == Sum(x) - diff
  {
    forall i | 0 <= i < |y|
      ensures y[i] == x[i] - diff * w[i]
    {
      assert y[i] == Absorbed(x[i], diff, w[i]);
    }
    SumLinear(x, w, y, diff);
    TimesOne(diff, Sum(w));
  }

  lemma TimesOne(d: real, s: real)
    requires s == 1.0
    ensures d * s == d
  {
  }

  /** The `updated` list of `handlePercentageChange`, before normalisation. */
  function Redistribute(s: seq<OrderAllocation>, index: int, newPercentage: real,
                        totalShares: real, totalPrincipal: real): (updated: seq<OrderAllocation>)
    requires 0 <= index < |s| && |s| > 1
    ensures |updated| == |s|
    ensures forall i :: 0 <= i < |s| ==>
      SameAccount(updated[i], s[i]) && Proportional(updated[i], totalShares, totalPrincipal) && updated[i].percentage >= 0.0
    ensures updated[index].percentage == ClampPercentage(newPercentage)
    ensures forall i :: 0 <= i < |s| && i != index ==> updated[i].percentage == Max(0.0, Shifted(s, index, newPercentage, i))
  {
    seq(|s|, i requires 0 <= i < |s| =>
      if i == index then WithPercentage(s[i], ClampPercentage(newPercentage), totalShares, totalPrincipal)
      else WithPercentage(s[i], Max(0.0, Shifted(s, index, newPercentage, i)), totalShares, totalPrincipal))
  }

  /** One account rescaled: `a.percentage *= factor` and the amounts recomputed. */
  function Rescale(a: OrderAllocation, factor: real, totalShares: real, totalPrincipal: real): OrderAllocation
  {
    WithPercentage(a, a.percentage * factor, totalShares, totalPrincipal)
  }

  /** Every account rescaled by `factor`. */
  function Rescaled(s: seq<OrderAllocation>, factor: real, totalShares: real, totalPrincipal: real): (r: seq<OrderAllocation>)
    ensures |r| == |s|
    ensures forall i :: 0 <= i < |s| ==> r[i] == Rescale(s[i], factor, totalShares, totalPrincipal)
  {
    seq(|s|, i requires 0 <= i < |s| => Rescale(s[i], factor, totalShares, totalPrincipal))
  }

  /** What the normalisation step leaves: rescaled by 100 / total when the total is
      positive and not already 100, unchanged otherwise. */
  function Normalized(s: seq<OrderAllocation>, totalShares: real, totalPrincipal: real): (r: seq<OrderAllocation>)
    ensures |r| == |s|
    ensures forall i :: 0 <= i < |s| ==> SameAccount(r[i], s[i])
    ensures TotalPercentage(s) == 100.0 || TotalPercentage(s) <= 0.0 ==> r == s
  {
    var total := TotalPercentage(s);
    if total != 100.0 && total > 0.0 then Rescaled(s, 100.0 / total, totalShares, totalPrincipal) else s
  }

  /** After normalisation a list with a positive total sums to exactly 100, each
      percentage keeps its sign, and the accounts are the same. */
  lemma NormalizedSumsTo100(s: seq<OrderAllocation>, totalShares: real, totalPrincipal: real)
    requires TotalPercentage(s) > 0.0
    ensures TotalPercentage(Normalized(s, totalShares, totalPrincipal)) == 100.0
  {
    var total := TotalPercentage(s);
    if total != 100.0 {
      var r := Rescaled(s, 100.0 / total, totalShares, totalPrincipal);
      SumScale(Percentages(s), Percentages(r), 100.0 / total);
    }
  }

  /** The normalisation `forEach`, updating the array of allocations in place. */
  method Normalize(a: array<OrderAllocation>, totalShares: real, totalPrincipal: real)
    modifies a
    ensures a[..] == Normalized(old(a[..]), totalShares, totalPrincipal)
  {
    var total := TotalPercentage(a[..]);
    if total != 100.0 && total > 0.0 {
      var factor := 100.0 / total;
      ghost var target := Rescaled(a[..], factor, totalShares, totalPrincipal);
      var i := 0;
      while i < a.Length
        invariant 0 <= i <= a.Length
        invariant forall k :: 0 <= k < i ==> a[k] == target[k]
        invariant forall k :: i <= k < a.Length ==> a[k] == old(a[k])
      {
        a[i] := Rescale(a[i], factor, totalShares, totalPrincipal);
        i := i + 1;
      }
      assert a[..] == target;
    }
  }

  /** `handlePercentageChange(index, newPercentage)`: the allocations handed to `onChange`. */
  method HandlePercentageChange(allocations: seq<OrderAllocation>, index: int, newPercentage: real,
                                totalShares: real, totalPrincipal: real) returns (updated: seq<OrderAllocation>)
    requires 0 <= index < |allocations|
    ensures |updated| == |allocations|
    ensures forall i :: 0 <= i < |updated| ==>
      SameAccount(updated[i], allocations[i]) && Proportional(updated[i], totalShares, totalPrincipal) &&
      updated[i].percentage >= 0.0
    ensures |allocations| == 1 ==> updated[0].percentage == 100.0 && updated[0].shares == totalShares && updated[0].principal == totalPrincipal
    ensures |allocations| == 1 ==> updated == [WithPercentage(allocations[0], 100.0, totalShares, totalPrincipal)]
    ensures |allocations| > 1 ==>
      updated == Normalized(Redistribute(allocations, index, newPercentage, totalShares, totalPrincipal), totalShares, totalPrincipal)
    ensures TotalPercentage(updated) == 100.0 || forall i :: 0 <= i < |updated| ==> updated[i].percentage == 0.0
    ensures |allocations| > 1 && TotalPercentage(allocations) == 100.0 && NoFloorHit(allocations, index, newPercentage) ==>
      updated[index].percentage == ClampPercentage(newPercentage)
  {
    if |allocations| == 1 {
      updated := [WithPercentage(allocations[0], 100.0, totalShares, totalPrincipal)];
      assert Percentages(updated) == [100.0];
      assert Sum([100.0]) == 100.0 + Sum([100.0][1..]);
      return;
    }
    var r := Redistribute(allocations, index, newPercentage, totalShares, totalPrincipal);
    var a := new OrderAllocation[|r|](i requires 0 <= i < |r| => r[i]);
    assert a[..] == r;
    Normalize(a, totalShares, totalPrincipal);
    updated := a[..];
    NormalizedKeepsAccounts(r, allocations, totalShares, totalPrincipal);
    if TotalPercentage(allocations) == 100.0 && NoFloorHit(allocations, index, newPercentage) {
      BalancedEditNeedsNoRescale(allocations, index, newPercentage, totalShares, totalPrincipal);
    }
  }

  /** Normalising a list of non-negative, proportional allocations keeps the accounts,
      keeps every percentage non-negative and proportional, and either reaches a total
      of 100 or leaves a list whose percentages are all 0. */
  lemma NormalizedKeepsAccounts(r: seq<OrderAllocation>, accounts: seq<OrderAllocation>,
                                totalShares: real, totalPrincipal: real)
    requires |r| == |accounts|
    requires forall i :: 0 <= i < |r| ==>
      SameAccount(r[i], accounts[i]) && Proportional(r[i], totalShares, totalPrincipal) && r[i].percentage >= 0.0
    ensures var n := Normalized(r, totalShares, totalPrincipal);
      |n| == |r| &&
      (forall i :: 0 <= i < |n| ==>
        SameAccount(n[i], accounts[i]) && Proportional(n[i], totalShares, totalPrincipal) && n[i].percentage >= 0.0) &&
      (TotalPercentage(n) == 100.0 || forall i :: 0 <= i < |n| ==> n[i].percentage == 0.0)
  {
    var total := TotalPercentage(r);
    if total > 0.0 {
      NormalizedSumsTo100(r, totalShares, totalPrincipal);
      if total != 100.0 {
        var factor := 100.0 / total;
        forall i | 0 <= i < |r| ensures r[i].percentage * factor >= 0.0 {
          NonNegativeProduct(r[i].percentage, factor);
        }
      }
    } else {
      forall i | 0 <= i < |r| ensures r[i].percentage == 0.0 {
        ElementAtMostSum(Percentages(r), i);
      }
    }
  }

  lemma NonNegativeProduct(x: real, y: real)
    requires x >= 0.0 && y >= 0.0
    ensures x * y >= 0.0
  {
  }

  /** The weights with which the other accounts absorb the difference sum to 1. */
  lemma WeightsSumToOne(s: seq<OrderAllocation>, index: int, w: seq<real>)
    requires 0 <= index < |s| && |s| > 1
    requires |w| == |s| && w[index] == 0.0
    requires forall i :: 0 <= i < |s| && i != index ==> w[i] == Proportion(s, OtherTotal(s, index), i)
    ensures Sum(w) == 1.0
  {
    var x := Percentages(s);
    var otherTotal := OtherTotal(s, index);
    OtherTotalIsRest(s, index);
    if otherTotal > 0.0 {
      ProportionalWeights(x, w, index, otherTotal);
    } else {
      UniformWeights(w, index, 1.0 / (|s| - 1) as real);
    }
  }

  /** Weights `x[i] / T` over every index but `k`, where `T` is the sum of those `x[i]`. */
  lemma ProportionalWeights(x: seq<real>, w: seq<real>, k: int, otherTotal: real)
    requires 0 <= k < |x| == |w| && w[k] == 0.0 && otherTotal > 0.0
    requires Sum(x) - x[k] == otherTotal
    requires forall i :: 0 <= i < |x| && i != k ==> w[i] == x[i] / otherTotal
    ensures Sum(w) == 1.0
  {
    SumUpdate(x, k, 0.0);
    WeightsTimesTotal(x, w, k, otherTotal);
    ScaledWeightsSumToOne(x[k := 0.0], w, otherTotal);
  }

  /** Weights that scale back to amounts summing to `t` sum to 1. */
  lemma ScaledWeightsSumToOne(rest: seq<real>, w: seq<real>, t: real)
    requires |rest| == |w| && t > 0.0 && Sum(rest) == t
    requires forall i :: 0 <= i < |w| ==> rest[i] == w[i] * t
    ensures Sum(w) == 1.0
  {
    SumScale(w, rest, t);
    Cancel(Sum(rest), t, Sum(w));
  }

  lemma WeightsTimesTotal(x: seq<real>, w: seq<real>, k: int, t: real)
    requires 0 <= k < |x| == |w| && w[k] == 0.0 && t > 0.0
    requires forall i :: 0 <= i < |x| && i != k ==> w[i] == x[i] / t
    ensures forall i :: 0 <= i < |w| ==> x[k := 0.0][i] == w[i] * t
  {
    forall i | 0 <= i < |w| ensures x[k := 0.0][i] == w[i] * t {
      if i != k {
        DivisionTimesDivisor(x[i], t);
      }
    }
  }

  lemma DivisionTimesDivisor(a: real, b: real)
    requires b != 0.0
    ensures a / b * b == a
  {
  }

  lemma Cancel(a: real, t: real, s: real)
    requires t > 0.0 && a == t && a == t * s
    ensures s == 1.0
  {
    assert t * (s - 1.0) == 0.0;
  }

  /** The equal share `c = 1 / (n - 1)` over every index but `k`. */
  lemma UniformWeights(w: seq<real>, k: int, c: real)
    requires 0 <= k < |w| && |w| > 1 && w[k] == 0.0 && c == 1.0 / (|w| - 1) as real
    requires forall i :: 0 <= i < |w| && i != k ==> w[i] == c
    ensures Sum(w) == 1.0
  {
    var full := seq(|w|, i => c);
    SumConstant(full, c);
    assert w == full[k := 0.0];
    SumUpdate(full, k, 0.0);
    var m := (|w| - 1) as real;
    assert |w| as real * c - c == m * c;
    assert m * c == 1.0;
  }

  /** No other account would drop below 0 before the floor. */
  predicate NoFloorHit(s: seq<OrderAllocation>, index: int, newPercentage: real)
    requires 0 <= index < |s| && |s| > 1
  {
    forall i :: 0 <= i < |s| && i != index ==> Shifted(s, index, newPercentage, i) >= 0.0
  }

  /** The weight of every account in absorbing the difference; 0 for the edited one. */
  function Weights(s: seq<OrderAllocation>, index: int): (w: seq<real>)
    requires 0 <= index < |s| && |s| > 1
    ensures |w| == |s| && w[index] == 0.0
    ensures forall i :: 0 <= i < |s| && i != index ==> w[i] == Proportion(s, OtherTotal(s, index), i)
  {
    seq(|s|, i requires 0 <= i < |s| => if i == index then 0.0 else Proportion(s, OtherTotal(s, index), i))
  }

  /** When no other account hits the floor at 0, the redistribution keeps the total:
      what the edited account gains, the others lose, and the other way round. */
  lemma RedistributeKeepsTotal(s: seq<OrderAllocation>, index: int, newPercentage: real,
                               totalShares: real, totalPrincipal: real)
    requires 0 <= index < |s| && |s| > 1
    requires NoFloorHit(s, index, newPercentage)
    ensures TotalPercentage(Redistribute(s, index, newPercentage, totalShares, totalPrincipal)) == TotalPercentage(s)
  {
    var x := Percentages(s);
    var clamped := ClampPercentage(newPercentage);
    var diff := clamped - s[index].percentage;
    var w := Weights(s, index);
    WeightsSumToOne(s, index, w);
    var shifted := seq(|s|, i requires 0 <= i < |s| => Absorbed(x[i], diff, w[i]));
    AbsorbedTotal(x, w, shifted, diff);
    RedistributedPercentages(s, index, newPercentage, totalShares, totalPrincipal, shifted);
    SumUpdate(shifted, index, clamped);
    assert shifted[index] == x[index];
  }

  lemma RedistributedPercentages(s: seq<OrderAllocation>, index: int, newPercentage: real,
                                 totalShares: real, totalPrincipal: real, shifted: seq<real>)
    requires 0 <= index < |s| && |s| > 1
    requires NoFloorHit(s, index, newPercentage)
    requires |shifted| == |s|
    requires forall i :: 0 <= i < |s| ==>
      shifted[i] == Absorbed(s[i].percentage, ClampPercentage(newPercentage) - s[index].percentage, Weights(s, index)[i])
    ensures Percentages(Redistribute(s, index, newPercentage, totalShares, totalPrincipal)) ==
      shifted[index := ClampPercentage(newPercentage)]
  {
    var updated := Redistribute(s, index, newPercentage, totalShares, totalPrincipal);
    var w := Weights(s, index);
    forall i | 0 <= i < |s| && i != index
      ensures updated[i].percentage == shifted[i]
    {
      assert w[i] == Proportion(s, OtherTotal(s, index), i);
      assert Shifted(s, index, newPercentage, i) >= 0.0;
    }
  }

  /** When the percentages added up to 100 and no other account hits the floor at 0,
      the redistribution alone keeps the total at 100 and normalisation changes nothing. */
  lemma BalancedEditNeedsNoRescale(s: seq<OrderAllocation>, index: int, newPercentage: real,
                                   totalShares: real, totalPrincipal: real)
    requires 0 <= index < |s| && |s| > 1
    requires TotalPercentage(s) == 100.0
    requires NoFloorHit(s, index, newPercentage)
    ensures var updated := Redistribute(s, index, newPercentage, totalShares, totalPrincipal);
      TotalPercentage(updated) == 100.0 && Normalized(updated, totalShares, totalPrincipal) == updated &&
      updated[index].percentage == ClampPercentage(newPercentage)
  {
    RedistributeKeepsTotal(s, index, newPercentage, totalShares, totalPrincipal);
  }

  /** The total row: the rounded sum of the percentages. */
  function TotalRowPercent(s: seq<OrderAllocation>): (r: int)
    ensures TotalPercentage(s) == 100.0 ==> r == 100
  {
    Round(TotalPercentage(s))
  }
}
