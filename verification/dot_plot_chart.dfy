/** src/components/markets/economic/DotPlotChart.tsx: the statistics behind the FOMC
    dot plot. Each data point is one projected rate for one year with the number of
    officials who projected it. */
module DotPlotChart {
  import opened Prelude
  import Sorting

  /** `FedDotPlotPoint`. */
  datatype DotPoint = DotPoint(year: int, rate: real, count: int)

  /** One dot of the scatter: a data point repeated once per official. */
  datatype ScatterPoint = ScatterPoint(x: real, rate: real, year: int, count: int)

  datatype YearMedian = YearMedian(year: int, median: Option<real>)

  predicate StrictlyAscending(s: seq<int>)
  {
    forall i, j :: 0 <= i < j < |s| ==> s[i] < s[j]
  }

  /** Inserts `y` into a strictly ascending list unless it is already there. */
  function InsertYear(y: int, s: seq<int>): (r: seq<int>)
    requires StrictlyAscending(s)
    ensures StrictlyAscending(r)
    ensures forall x :: x in r <==> x in s || x == y
    ensures |r| > 0 && (r[0] == y || (s != [] && r[0] == s[0]))
  {
    if s == [] then [y]
    else if y < s[0] then [y] + s
    else if y == s[0] then s
    else [s[0]] + InsertYear(y, s[1..])
  }

  /** `[...new Set(data.map(d => d.year))].sort((a, b) => a - b)`. */
  function UniqueYears(data: seq<DotPoint>): (years: seq<int>)
    ensures StrictlyAscending(years)
    ensures forall y :: y in years <==> exists d :: d in data && d.year == y
  {
    if data == [] then []
    else
      var rest := UniqueYears(data[1..]);
      assert forall d :: d in data <==> d == data[0] || d in data[1..];
      InsertYear(data[0].year, rest)
  }

  function MinRate(data: seq<DotPoint>): (m: real)
    requires data != []
    ensures forall d :: d in data ==> m <= d.rate
    ensures exists d :: d in data && d.rate == m
  {
    if |data| == 1 then data[0].rate
    else
      var rest := MinRate(data[1..]);
      assert forall d :: d in data[1..] ==> d in data;
      Min(data[0].rate, rest)
  }

  function MaxRate(data: seq<DotPoint>): (m: real)
    requires data != []
    ensures forall d :: d in data ==> d.rate <= m
    ensures exists d :: d in data && d.rate == m
  {
    if |data| == 1 then data[0].rate
    else
      var rest := MaxRate(data[1..]);
      assert forall d :: d in data[1..] ==> d in data;
      Max(data[0].rate, rest)
  }

  /** `x` is a whole number of quarter points. */
  predicate IsQuarter(x: real)
  {
    (x * 4.0).Floor as real == x * 4.0
  }

  /** `Math.floor(x * 4) / 4`: the largest quarter at or below `x`. */
  function FloorQuarter(x: real): (q: real)
    ensures IsQuarter(q) && q <= x < q + 0.25
  {
    var n := (x * 4.0).Floor;
    assert (n as real / 4.0) * 4.0 == n as real;
    n as real / 4.0
  }

  /** `Math.ceil(x * 4) / 4`: the smallest quarter at or above `x`. */
  function CeilQuarter(x: real): (q: real)
    ensures IsQuarter(q) && q - 0.25 < x <= q
  {
    var n := Ceil(x * 4.0);
    assert (n as real / 4.0) * 4.0 == n as real;
    n as real / 4.0
  }

  /** The y-axis domain: a quarter-point padding around the projected rates. With no
      data, `Math.min()` is Infinity and the domain is empty (`None`). */
  function YDomain(data: seq<DotPoint>): (dom: Option<(real, real)>)
    ensures data == [] <==> dom.None?
    ensures dom.Some? ==>
      var (lo, hi) := dom.value;
      IsQuarter(lo) && IsQuarter(hi) &&
      lo <= MinRate(data) - 0.25 < lo + 0.25 &&
      hi - 0.25 < MaxRate(data) + 0.25 <= hi
  {
    if data == [] then None
    else Some((FloorQuarter(MinRate(data) - 0.25), CeilQuarter(MaxRate(data) + 0.25)))
  }

  /** Every projected rate lies at least a quarter point inside the y-domain. */
  lemma RatesInsideYDomain(data: seq<DotPoint>, d: DotPoint)
    requires d in data
    ensures YDomain(data).Some?
    ensures YDomain(data).value.0 + 0.25 <= d.rate <= YDomain(data).value.1 - 0.25
  {
  }

  /** The x-axis domain: half a year either side of the years, or 2024 to 2030. */
  function XDomain(years: seq<int>): (dom: (real, real))
    requires StrictlyAscending(years)
    ensures years == [] ==> dom == (2024.0, 2030.0)
    ensures years != [] ==>
      (forall y :: y in years ==> dom.0 + 0.5 <= y as real <= dom.1 - 0.5) &&
      (exists y :: y in years && y as real == dom.0 + 0.5) &&
      (exists y :: y in years && y as real == dom.1 - 0.5)
  {
    if years == [] then (2024.0, 2030.0)
    else
      assert years[0] in years && years[|years| - 1] in years;
      (years[0] as real - 0.5, years[|years| - 1] as real + 0.5)
  }

  /** The horizontal offset of the `i`-th dot of a point with `count` officials. */
  function Offset(i: int, count: int): real
  {
    (i as real - count as real / 2.0) * 0.03
  }

  /** The dots of one data point: `count` of them, none for a count of 0 or less. */
  function DotsOf(d: DotPoint): (r: seq<ScatterPoint>)
    ensures |r| == MaxInt(d.count, 0)
    ensures forall i :: 0 <= i < |r| ==> r[i] == ScatterPoint(d.year as real + Offset(i, d.count), d.rate, d.year, d.count)
  {
    seq(MaxInt(d.count, 0), i => ScatterPoint(d.year as real + Offset(i, d.count), d.rate, d.year, d.count))
  }

  /** All dots, point by point. */
  function Expanded(data: seq<DotPoint>): seq<ScatterPoint>
  {
    if data == [] then [] else Expanded(data[..|data| - 1]) + DotsOf(data[|data| - 1])
  }

  /** The number of officials: the sum of the counts, negative counts taken as 0. */
  function TotalCount(data: seq<DotPoint>): nat
  {
    if data == [] then 0 else TotalCount(data[..|data| - 1]) + MaxInt(data[|data| - 1].count, 0)
  }

  /** There is one dot per official, and each dot carries its point's year, rate and count. */
  lemma {:induction false} ExpandedDots(data: seq<DotPoint>)
    ensures |Expanded(data)| == TotalCount(data)
    ensures forall p :: p in Expanded(data) ==>
      exists d :: d in data && d.count > 0 && p.year == d.year && p.rate == d.rate && p.count == d.count
  {
    if data != [] {
      var init := data[..|data| - 1];
      ExpandedDots(init);
      assert forall d :: d in init ==> d in data;
      var last := data[|data| - 1];
      forall p | p in DotsOf(last)
        ensures last in data && last.count > 0 && p.year == last.year && p.rate == last.rate && p.count == last.count
      {
      }
    }
  }

  /** The expansion `forEach` with its inner `for`, pushing one dot at a time. */
  method ExpandCounts(data: seq<DotPoint>) returns (processed: seq<ScatterPoint>)
    ensures processed == Expanded(data)
    ensures |processed| == TotalCount(data)
  {
    processed := [];
    var k := 0;
    while k < |data|
      invariant 0 <= k <= |data|
      invariant processed == Expanded(data[..k])
    {
      var point := data[k];
      var i := 0;
      while i < point.count
        invariant 0 <= i <= MaxInt(point.count, 0)
        invariant processed == Expanded(data[..k]) + DotsOf(point)[..i]
      {
        var offset := (i as real - point.count as real / 2.0) * 0.03;
        processed := processed + [ScatterPoint(point.year as real + offset, point.rate, point.year, point.count)];
        i := i + 1;
      }
      assert DotsOf(point)[..MaxInt(point.count, 0)] == DotsOf(point);
      assert data[..k + 1][..k] == data[..k];
      k := k + 1;
    }
    assert data[..|data|] == data;
    ExpandedDots(data);
  }

  /** The rates of one year's points, each repeated `count` times. */
  function RatesOf(data: seq<DotPoint>): seq<real>
  {
    if data == [] then [] else RatesOf(data[..|data| - 1]) + seq(MaxInt(data[|data| - 1].count, 0), i => data[|data| - 1].rate)
  }

  /** `data.filter(d => d.year === year)`. */
  function YearData(data: seq<DotPoint>, year: int): (r: seq<DotPoint>)
    ensures forall d :: d in r <==> d in data && d.year == year
  {
    Filter(data, (d: DotPoint) => d.year == year)
  }

  /** Nothing is expanded exactly when no point has a positive count. */
  lemma {:induction false} RatesOfEmpty(data: seq<DotPoint>)
    ensures RatesOf(data) == [] <==> forall d :: d in data ==> d.count <= 0
  {
    if data != [] {
      RatesOfEmpty(data[..|data| - 1]);
      var last := data[|data| - 1];
      assert forall d :: d in data <==> d in data[..|data| - 1] || d == last;
      if last.count > 0 {
        assert |RatesOf(data)| >= MaxInt(last.count, 0) > 0;
      }
    }
  }

  lemma {:induction false} RatesOfFrom(data: seq<DotPoint>)
    ensures forall r :: r in RatesOf(data) ==> exists d :: d in data && d.count > 0 && d.rate == r
  {
    if data != [] {
      RatesOfFrom(data[..|data| - 1]);
      assert forall d :: d in data[..|data| - 1] ==> d in data;
    }
  }

  predicate Ascending(s: seq<real>)
  {
    forall i, j :: 0 <= i < j < |s| ==> s[i] <= s[j]
  }

  /** The middle of a sorted list, or the mean of the two middles when its length is
      even; `None` (NaN) for an empty list. */
  function Middle(s: seq<real>): (m: Option<real>)
    ensures m.None? <==> s == []
  {
    var mid := |s| / 2;
    if |s| % 2 == 1 then Some(s[mid])
    else if |s| == 0 then None
    else Some((s[mid - 1] + s[mid]) / 2.0)
  }

  /** The middle of a sorted list lies between its first and last element. */
  lemma MiddleBounds(s: seq<real>)
    requires Ascending(s) && s != []
    ensures s[0] <= Middle(s).value <= s[|s| - 1]
  {
    var mid := |s| / 2;
    if |s| % 2 == 0 {
      assert s[0] <= s[mid - 1] <= s[mid] <= s[|s| - 1];
    }
  }

  /** The inner loops: every point of the year pushes its rate `count` times. */
  method ExpandRates(yearData: seq<DotPoint>) returns (expanded: seq<real>)
    ensures expanded == RatesOf(yearData)
  {
    expanded := [];
    var k := 0;
    while k < |yearData|
      invariant 0 <= k <= |yearData|
      invariant expanded == RatesOf(yearData[..k])
    {
      var d := yearData[k];
      var i := 0;
      while i < d.count
        invariant 0 <= i <= MaxInt(d.count, 0)
        invariant expanded == RatesOf(yearData[..k]) + seq(i, _ => d.rate)
      {
        expanded := expanded + [d.rate];
        i := i + 1;
      }
      assert yearData[..k + 1][..k] == yearData[..k];
      k := k + 1;
    }
    assert yearData[..|yearData|] == yearData;
  }

  /** The median of a year's sorted, expanded rates is between two rates of that year
      that some official projected. */
  lemma MedianWithinYear(data: seq<DotPoint>, year: int, sorted: seq<real>)
    requires multiset(sorted) == multiset(RatesOf(YearData(data, year)))
    requires Ascending(sorted) && sorted != []
    ensures (exists d :: d in data && d.year == year && d.count > 0 && d.rate <= Middle(sorted).value) &&
            (exists d :: d in data && d.year == year && d.count > 0 && Middle(sorted).value <= d.rate)
  {
    var yearData := YearData(data, year);
    MiddleBounds(sorted);
    RatesOfFrom(yearData);
    assert sorted[0] in multiset(RatesOf(yearData));
    assert sorted[|sorted| - 1] in multiset(RatesOf(yearData));
    assert sorted[0] in RatesOf(yearData);
    assert sorted[|sorted| - 1] in RatesOf(yearData);
  }

  /** The weighted median of one year: the rates expanded by count, sorted ascending,
      and their middle. Returns the sorted rates with it. */
  method WeightedMedian(data: seq<DotPoint>, year: int) returns (sorted: seq<real>, median: Option<real>)
    ensures multiset(sorted) == multiset(RatesOf(YearData(data, year)))
    ensures Ascending(sorted)
    ensures median == Middle(sorted)
    ensures WithinYear(data, YearMedian(year, median))
  {
    var yearData := YearData(data, year);
    var expanded := ExpandRates(yearData);
    sorted := Sorting.SortedCopy(expanded, (x: real, y: real) => x <= y);
    median := Middle(sorted);
    if median.Some? {
      MedianWithinYear(data, year, sorted);
    }
  }

  /** A median, when there is one, lies between the smallest and the largest rate
      projected (by at least one official) for its year. */
  ghost predicate WithinYear(data: seq<DotPoint>, ym: YearMedian)
  {
    ym.median.Some? ==>
      (exists d :: d in data && d.year == ym.year && d.count > 0 && d.rate <= ym.median.value) &&
      (exists d :: d in data && d.year == ym.year && d.count > 0 && ym.median.value <= d.rate)
  }

  /** `ym.median` is the weighted median of its year: the middle (or the mean of the two
      middles) of the year's rates, each repeated as often as officials projected it,
      in ascending order. */
  ghost predicate IsWeightedMedian(data: seq<DotPoint>, ym: YearMedian)
  {
    exists sorted :: multiset(sorted) == multiset(RatesOf(YearData(data, ym.year))) &&
      Ascending(sorted) && ym.median == Middle(sorted)
  }

  /** One entry of `medianData`: the year and its weighted median, which is missing
      (NaN) exactly when no official projected a rate for that year. */
  method MedianOfYear(data: seq<DotPoint>, year: int) returns (ym: YearMedian)
    ensures ym.year == year
    ensures IsWeightedMedian(data, ym)
    ensures ym.median.None? <==> forall d :: d in data && d.year == year ==> d.count <= 0
    ensures WithinYear(data, ym)
  {
    var sorted, m := WeightedMedian(data, year);
    ym := YearMedian(year, m);
    assert multiset(sorted) == multiset(RatesOf(YearData(data, ym.year))) && Ascending(sorted) && ym.median == Middle(sorted);
    RatesOfEmpty(YearData(data, year));
    assert |sorted| == |multiset(sorted)| == |multiset(RatesOf(YearData(data, year)))| == |RatesOf(YearData(data, year))|;
  }

  /** Everything an entry of `medianData` promises about its year: the weighted median,
      missing exactly when nobody projected, and within the year's projected rates. */
  ghost predicate IsYearMedian(data: seq<DotPoint>, ym: YearMedian)
  {
    IsWeightedMedian(data, ym) &&
    (ym.median.None? <==> forall d :: d in data && d.year == ym.year ==> d.count <= 0) &&
    WithinYear(data, ym)
  }

  /** `medianData`: one median per unique year, in year order, each the weighted median
      of its year, missing only for a year without projections. */
  method Medians(data: seq<DotPoint>) returns (medians: seq<YearMedian>)
    ensures |medians| == |UniqueYears(data)|
    ensures forall i :: 0 <= i < |medians| ==> medians[i].year == UniqueYears(data)[i]
    ensures forall i :: 0 <= i < |medians| ==> IsYearMedian(data, medians[i])
  {
    var years := UniqueYears(data);
    medians := [];
    var k := 0;
    while k < |years|
      invariant 0 <= k <= |years|
      invariant |medians| == k
      invariant forall i :: 0 <= i < k ==> medians[i].year == years[i] && IsYearMedian(data, medians[i])
    {
      var ym := MedianOfYear(data, years[k]);
      assert IsYearMedian(data, ym);
      medians := medians + [ym];
      k := k + 1;
    }
  }

  /** The `k`-th quarter step above `lo`. */
  function TickValue(lo: real, k: int): real
  {
    lo + k as real * 0.25
  }

  /** The number of ticks from `lo` to `hi` in quarter steps, both ends included. */
  function TickCount(lo: real, hi: real): nat
  {
    if lo > hi then 0 else ((hi - lo) * 4.0).Floor + 1
  }

  /** `yTicks`: from the lower bound in steps of 0.25 while not past the upper bound,
      each rounded to hundredths. */
  method YTicks(lo: real, hi: real) returns (ticks: seq<real>)
    ensures |ticks| == TickCount(lo, hi)
    ensures forall k :: 0 <= k < |ticks| ==> ticks[k] == Round2(TickValue(lo, k)) && TickValue(lo, k) <= hi
    ensures hi < TickValue(lo, |ticks|)
  {
    ticks := [];
    var rate := lo;
    while rate <= hi
      invariant rate == TickValue(lo, |ticks|)
      invariant forall k :: 0 <= k < |ticks| ==> ticks[k] == Round2(TickValue(lo, k)) && TickValue(lo, k) <= hi
      invariant |ticks| <= TickCount(lo, hi)
      invariant |ticks| < TickCount(lo, hi) ==> rate <= hi
      decreases TickCount(lo, hi) - |ticks|
    {
      ticks := ticks + [Round2(rate)];
      rate := rate + 0.25;
    }
  }

  /** On quarter points the rounding changes nothing: the ticks are exactly
      `lo, lo + 0.25, ...`, ascending. */
  lemma QuarterTicksAreExact(lo: real, k: nat)
    requires IsQuarter(lo)
    ensures Round2(TickValue(lo, k)) == TickValue(lo, k)
  {
    var n := (lo * 4.0).Floor;
    var cents := n * 25 + k * 25;
    assert lo + k as real * 0.25 == cents as real / 100.0;
    Round2OfCents(cents);
  }
}
