/** src/utils/marketsMockData.ts: the discrete skeleton of the synthetic index series.
    The random walk's values (exponentials, square roots, floating-point drift) are
    not modelled; what is modelled is which points the generator emits, how many
    random draws it makes, the state of its random generator, and the guard of the
    period change. */
module MarketsMockData {
  import opened Prelude
  import opened MarketTypes

  /** `getDurationDays`. */
  function DurationDays(d: Duration): (days: nat)
    ensures d == Custom ==> days == 30
    ensures days > 0
  {
    match d
    case OneDay => 1
    case OneWeek => 7
    case OneMonth => 30
    case SixMonths => 180
    case OneYear => 365
    case TwoYears => 730
    case FiveYears => 1825
    case Custom => 30
  }

  /** Longer durations span more days. */
  lemma DurationDaysIncrease()
    ensures DurationDays(OneDay) < DurationDays(OneWeek) < DurationDays(OneMonth) < DurationDays(SixMonths) <
            DurationDays(OneYear) < DurationDays(TwoYears) < DurationDays(FiveYears)
  {
  }

  /** `marketIndices`: the quoted indices (the same ids, symbols and names as the
      catalogue; quotes and sparklines are not modelled). */
  const MarketIndices: seq<MarketIndex> := [
    MarketIndex("sp500", "SPX", "S&P 500", US),
    MarketIndex("nasdaq", "IXIC", "NASDAQ Composite", US),
    MarketIndex("dowjones", "DJI", "Dow Jones", US),
    MarketIndex("russell2000", "RUT", "Russell 2000", US),
    MarketIndex("vix", "VIX", "CBOE Volatility", US),
    MarketIndex("us10y", "TNX", "10-Year Treasury", US),
    MarketIndex("ftse100", "UKX", "FTSE 100", International),
    MarketIndex("dax", "DAX", "DAX", International),
    MarketIndex("cac40", "CAC", "CAC 40", International),
    MarketIndex("nikkei", "NKY", "Nikkei 225", International),
    MarketIndex("hangseng", "HSI", "Hang Seng", International),
    MarketIndex("msciem", "EEM", "MSCI Emerging", Emerging),
    MarketIndex("shanghai", "SHCOMP", "Shanghai Composite", Emerging)
  ]

  /** Every id has a walk profile of its own: the table behind the series covers
      every quoted index. */
  lemma EveryIndexHasCharacteristics()
    ensures forall k :: 0 <= k < |MarketIndices| ==> CharacteristicsEntry(MarketIndices[k].id).Some?
  {
  }

  datatype IndexCharacteristics = IndexCharacteristics(annualReturn: real, volatility: real, baseValue: real)

  const DefaultCharacteristics := IndexCharacteristics(0.08, 0.15, 1000.0)

  /** `indexCharacteristics[indexId]`, `None` for an id not in the table. */
  function CharacteristicsEntry(indexId: string): Option<IndexCharacteristics>
  {
    match indexId
    case "sp500" => Some(IndexCharacteristics(0.10, 0.15, 5842.0))
    case "nasdaq" => Some(IndexCharacteristics(0.15, 0.22, 18456.0))
    case "dowjones" => Some(IndexCharacteristics(0.08, 0.12, 42156.0))
    case "russell2000" => Some(IndexCharacteristics(0.07, 0.20, 2234.0))
    case "vix" => Some(IndexCharacteristics(-0.05, 0.80, 14.32))
    case "us10y" => Some(IndexCharacteristics(0.02, 0.10, 4.28))
    case "ftse100" => Some(IndexCharacteristics(0.06, 0.14, 7654.0))
    case "dax" => Some(IndexCharacteristics(0.09, 0.16, 16789.0))
    case "cac40" => Some(IndexCharacteristics(0.07, 0.15, 7456.0))
    case "nikkei" => Some(IndexCharacteristics(0.12, 0.18, 35678.0))
    case "hangseng" => Some(IndexCharacteristics(-0.02, 0.25, 17234.0))
    case "msciem" => Some(IndexCharacteristics(0.04, 0.20, 1045.0))
    case "shanghai" => Some(IndexCharacteristics(0.03, 0.22, 3123.0))
    case _ => None
  }

  /** `indexCharacteristics[indexId] || { 0.08, 0.15, 1000 }`. */
  function Characteristics(indexId: string): (c: IndexCharacteristics)
    ensures CharacteristicsEntry(indexId).None? ==> c == DefaultCharacteristics
    ensures CharacteristicsEntry(indexId).Some? ==> c == CharacteristicsEntry(indexId).value
    ensures c.baseValue > 0.0 && c.volatility > 0.0
  {
    match CharacteristicsEntry(indexId)
    case Some(c) => c
    case None => DefaultCharacteristics
  }

  /** `indexId.split('').reduce((a, c) => a + c.charCodeAt(0), 0)`. */
  function CharCodeSum(s: string): (n: nat)
    ensures s == [] ==> n == 0
    ensures forall i :: 0 <= i < |s| ==> s[i] as nat <= n
  {
    if s == [] then 0 else s[0] as nat + CharCodeSum(s[1..])
  }

  lemma {:induction false} CharCodeSumAppend(a: string, b: string)
    ensures CharCodeSum(a + b) == CharCodeSum(a) + CharCodeSum(b)
  {
    if a == [] {
      assert a + b == b;
    } else {
      assert (a + b)[1..] == a[1..] + b;
      CharCodeSumAppend(a[1..], b);
    }
  }

  /** The sum does not depend on the order of the characters. */
  lemma {:induction false} CharCodeSumOrderFree(a: string, b: string)
    requires multiset(a) == multiset(b)
    ensures CharCodeSum(a) == CharCodeSum(b)
    decreases |a|
  {
    if a != [] {
      assert a[0] in multiset(b);
      var k :| 0 <= k < |b| && b[k] == a[0];
      assert b == b[..k] + [b[k]] + b[k + 1..];
      CharCodeSumAppend(b[..k] + [b[k]], b[k + 1..]);
      CharCodeSumAppend(b[..k], [b[k]]);
      CharCodeSumAppend(b[..k], b[k + 1..]);
      assert a == [a[0]] + a[1..];
      assert multiset(a) == multiset{a[0]} + multiset(a[1..]);
      assert multiset(b) == multiset(b[..k]) + multiset{b[k]} + multiset(b[k + 1..]);
      assert multiset(b[..k] + b[k + 1..]) == multiset(b[..k]) + multiset(b[k + 1..]);
      forall x
        ensures multiset(a[1..])[x] == multiset(b[..k] + b[k + 1..])[x]
      {
        assert multiset(a)[x] == multiset{a[0]}[x] + multiset(a[1..])[x];
        assert multiset(b)[x] == multiset(b[..k])[x] + multiset{b[k]}[x] + multiset(b[k + 1..])[x];
      }
      assert multiset(a[1..]) == multiset(b[..k] + b[k + 1..]);
      CharCodeSumOrderFree(a[1..], b[..k] + b[k + 1..]);
    }
  }

  /** The seed: only the multiset of characters counts, so ids that are anagrams of
      each other (and the same day of month) start the same random sequence. */
  function Seed(indexId: string, endDayOfMonth: int): (seed: int)
    ensures seed >= endDayOfMonth
    ensures indexId == [] ==> seed == endDayOfMonth
    ensures forall i :: 0 <= i < |indexId| ==> seed >= indexId[i] as int + endDayOfMonth
  {
    CharCodeSum(indexId) + endDayOfMonth
  }

  /** Two index ids made of the same characters in another order get the same seed,
      and so the same generated series. */
  lemma AnagramsShareSeed(a: string, b: string, endDayOfMonth: int)
    requires multiset(a) == multiset(b)
    ensures Seed(a, endDayOfMonth) == Seed(b, endDayOfMonth)
  {
    CharCodeSumOrderFree(a, b);
  }

  /** Moving one character to the front does not change the seed. */
  lemma SeedIgnoresOrder(a: string, c: char, b: string, day: int)
    ensures Seed(a + [c] + b, day) == Seed([c] + a + b, day)
  {
    CharCodeSumAppend(a + [c], b);
    CharCodeSumAppend(a, [c]);
    CharCodeSumAppend([c] + a, b);
    CharCodeSumAppend([c], a);
    assert CharCodeSum([c]) == c as nat + CharCodeSum([]);
  }

  const Modulus: int := 0x8000_0000
  const Mask: int := 0x7fff_ffff

  /** One step of the linear congruential generator, in exact integer arithmetic:
      `(seed * 1103515245 + 12345) & 0x7fffffff`. */
  function Step(seed: int): (next: int)
    ensures 0 <= next <= Mask
  {
    (seed * 1103515245 + 12345) % Modulus
  }

  /** The state after `n` draws. */
  function StepN(seed: int, n: nat): int
  {
    if n == 0 then seed else Step(StepN(seed, n - 1))
  }

  /** The values of `n` successive draws: a function of the seed alone. */
  function Draws(seed: int, n: nat): (r: seq<real>)
    ensures |r| == n
    ensures forall i :: 0 <= i < n ==> 0.0 <= r[i] <= 1.0
  {
    if n == 0 then []
    else
      var next := StepN(seed, n);
      Draws(seed, n - 1) + [next as real / Mask as real]
  }

  /** Two generators with the same seed produce the same draws, and the draws of a
      longer run extend those of a shorter one. */
  lemma {:induction false} DrawsPrefix(seed: int, m: nat, n: nat)
    requires m <= n
    ensures Draws(seed, m) == Draws(seed, n)[..m]
  {
    if m < n {
      DrawsPrefix(seed, m, n - 1);
      assert Draws(seed, n)[..n - 1] == Draws(seed, n - 1);
    } else {
      assert Draws(seed, n)[..n] == Draws(seed, n);
    }
  }

  /** `seededRandom(seed)`: the closure and the seed it captures. */
  class Rng {
    var seed: int
    ghost var draws: nat
    ghost const initial: int

    ghost predicate Valid()
      reads this
    {
      seed == StepN(initial, draws)
    }

    constructor(seed: int)
      ensures this.seed == seed && initial == seed && draws == 0 && Valid()
    {
      this.seed := seed;
      initial := seed;
      draws := 0;
    }

    /** One call of the returned function. */
    method Next() returns (r: real)
      requires Valid()
      modifies this
      ensures seed == Step(old(seed)) && 0 <= seed <= Mask
      ensures r == seed as real / Mask as real && 0.0 <= r <= 1.0
      ensures draws == old(draws) + 1 && Valid()
      ensures r == Draws(initial, draws)[draws - 1]
    {
      seed := (seed * 1103515245 + 12345) % Modulus;
      r := seed as real / Mask as real;
      draws := draws + 1;
    }
  }

  /** `Math.ceil((end - start) / 86400000)`: whole days between two instants, rounded up. */
  function DaysBetween(startMs: int, endMs: int): (days: int)
    ensures (days - 1) * 86400000 < endMs - startMs <= days * 86400000
  {
    var diff := endMs - startMs;
    if diff % 86400000 == 0 then diff / 86400000 else diff / 86400000 + 1
  }

  /** `dataPoints`: for a custom range with a start date, the days between the dates
      capped at 1825; for '1D', 78 five-minute points; otherwise the duration's days. */
  function PointBudget(duration: Duration, customStartMs: Option<int>, endMs: int): (n: int)
    ensures duration == Custom && customStartMs.Some? ==> n == MinInt(DaysBetween(customStartMs.value, endMs), 1825) && n <= 1825
    ensures duration == OneDay ==> n == 78
    ensures duration != OneDay && !(duration == Custom && customStartMs.Some?) ==> n == DurationDays(duration)
  {
    if duration == Custom && customStartMs.Some? then MinInt(DaysBetween(customStartMs.value, endMs), 1825)
    else if duration == OneDay then 78
    else DurationDays(duration)
  }

  /** `totalDays`, the length of the walk: the duration's days, and therefore 30 for
      any custom range whatever its dates. */
  function WalkLength(duration: Duration): (days: nat)
    ensures duration == Custom ==> days == 30
    ensures days > 0
  {
    if duration == OneDay then 1 else DurationDays(duration)
  }

  /** The stepping interval in days; `Unbounded` is JavaScript's Infinity, which a
      budget of 0 produces and which makes the loop stop after its first pass. */
  datatype Interval = Every(days: nat) | Unbounded

  /** `Math.max(1, Math.floor(totalDays / Math.min(dataPoints, 500)))`. */
  function StepInterval(totalDays: nat, dataPoints: int): (iv: Interval)
    ensures iv.Every? ==> iv.days >= 1
    ensures iv.Unbounded? <==> dataPoints == 0
    ensures dataPoints > 0 ==> iv == Every(MaxInt(1, totalDays / MinInt(dataPoints, 500)))
    ensures dataPoints < 0 ==> iv == Every(1)
  {
    var divisor := MinInt(dataPoints, 500);
    if divisor == 0 then Unbounded
    else if divisor < 0 then Every(1)
    else Every(MaxInt(1, totalDays / divisor))
  }

  /** The fixed durations step day by day, except five years, which steps every 3 days. */
  lemma FixedDurationIntervals()
    ensures forall d :: d != OneDay && d != Custom && d != FiveYears ==>
      StepInterval(WalkLength(d), PointBudget(d, None, 0)) == Every(1)
    ensures StepInterval(WalkLength(FiveYears), PointBudget(FiveYears, None, 0)) == Every(3)
  {
  }

  /** `date.getDay()` of the day `offset` days after a day with weekday `startDow`. */
  function Weekday(startDow: int, offset: int): (d: int)
    ensures 0 <= d < 7
  {
    (startDow + offset) % 7
  }

  predicate IsWeekend(startDow: int, offset: int)
  {
    Weekday(startDow, offset) == 0 || Weekday(startDow, offset) == 6
  }

  /** The distance between two visited days: the interval, or (for Infinity) a step
      past the end, so that only day 0 is visited. */
  function Stride(iv: Interval, totalDays: nat): (step: nat)
    ensures step >= 1
    ensures iv.Unbounded? ==> step > totalDays
  {
    if iv.Every? && iv.days >= 1 then iv.days else totalDays + 1
  }

  /** The `n`-th day the loop visits from day `i`. */
  function GridPoint(i: nat, step: nat, n: nat): nat
  {
    i + n * step
  }

  /** The grid from the next visit is the same grid, one step further along. */
  lemma GridShift(i: nat, step: nat, n: nat)
    ensures GridPoint(i + step, step, n) == GridPoint(i, step, n + 1)
  {
    assert (n + 1) * step == n * step + step;
  }

  /** The days `i, i + step, i + 2 * step, ...` up to `totalDays`: the loop's visits. */
  function Visits(i: nat, step: nat, totalDays: nat): (r: seq<nat>)
    requires step >= 1
    ensures forall x :: x in r ==> i <= x <= totalDays
    decreases totalDays + 1 - i
  {
    if i > totalDays then [] else [i] + Visits(i + step, step, totalDays)
  }

  /** The visits are exactly the grid points up to `totalDays`, in ascending order. */
  lemma {:induction false} VisitsAreGrid(i: nat, step: nat, totalDays: nat)
    requires step >= 1
    ensures var r := Visits(i, step, totalDays);
      (forall k :: 0 <= k < |r| ==> r[k] == GridPoint(i, step, k)) &&
      (forall n: nat :: GridPoint(i, step, n) <= totalDays ==> n < |r|) &&
      StrictlyIncreasing(r)
    decreases totalDays + 1 - i
  {
    if i <= totalDays {
      var rest := Visits(i + step, step, totalDays);
      VisitsAreGrid(i + step, step, totalDays);
      var r := [i] + rest;
      forall k | 0 < k < |r|
        ensures r[k] == GridPoint(i, step, k)
      {
        assert r[k] == rest[k - 1];
        GridShift(i, step, k - 1);
      }
      forall n: nat | GridPoint(i, step, n) <= totalDays
        ensures n < |r|
      {
        if n > 0 {
          GridShift(i, step, n - 1);
        }
      }
    }
  }

  /** The trading days the loop emits from day `i`: its visits with weekends dropped. */
  function TradingDays(i: nat, step: nat, totalDays: nat, startDow: int): (r: seq<nat>)
    requires step >= 1
    ensures forall d :: d in r ==> i <= d <= totalDays && !IsWeekend(startDow, d) && d in Visits(i, step, totalDays)
    ensures forall d :: d in Visits(i, step, totalDays) && !IsWeekend(startDow, d) ==> d in r
  {
    Filter(Visits(i, step, totalDays), (d: nat) => !IsWeekend(startDow, d))
  }

  predicate StrictlyIncreasing(s: seq<nat>)
  {
    forall k, l :: 0 <= k < l < |s| ==> s[k] < s[l]
  }

  lemma {:induction false} FilterKeepsIncreasing(s: seq<nat>, p: nat -> bool)
    requires StrictlyIncreasing(s)
    ensures StrictlyIncreasing(Filter(s, p))
  {
    if s != [] {
      FilterKeepsIncreasing(s[1..], p);
      var rest := Filter(s[1..], p);
      forall x | x in rest
        ensures s[0] < x
      {
        var j :| 0 <= j < |s[1..]| && s[1..][j] == x;
        assert s[j + 1] == x;
      }
      var r := Filter(s, p);
      if p(s[0]) {
        assert r == [s[0]] + rest;
        forall k, l | 0 <= k < l < |r|
          ensures r[k] < r[l]
        {
          assert r[l] == rest[l - 1] && r[l] in rest;
        }
      } else {
        assert r == rest;
      }
    }
  }

  /** One visit of the loop on a weekday: day `i`, then the trading days after it. */
  lemma WeekdayUnfold(i: nat, step: nat, totalDays: nat, startDow: int)
    requires step >= 1 && i <= totalDays && !IsWeekend(startDow, i)
    ensures TradingDays(i, step, totalDays, startDow) == [i] + TradingDays(i + step, step, totalDays, startDow)
  {
    var visits := Visits(i, step, totalDays);
    assert visits[0] == i && visits[1..] == Visits(i + step, step, totalDays);
  }

  /** One visit of the loop on a weekend day: nothing, then the trading days after it. */
  lemma WeekendUnfold(i: nat, step: nat, totalDays: nat, startDow: int)
    requires step >= 1 && i <= totalDays && IsWeekend(startDow, i)
    ensures TradingDays(i, step, totalDays, startDow) == TradingDays(i + step, step, totalDays, startDow)
  {
    var visits := Visits(i, step, totalDays);
    assert visits[0] == i && visits[1..] == Visits(i + step, step, totalDays);
  }

  /** One visit of the daily loop keeps "emitted so far, then the rest" equal to all the
      trading days. */
  lemma DailyStep(offsets: seq<nat>, i: nat, step: nat, totalDays: nat, startDow: int, all: seq<nat>)
    requires step >= 1 && i <= totalDays
    requires offsets + TradingDays(i, step, totalDays, startDow) == all
    ensures !IsWeekend(startDow, i) ==> (offsets + [i]) + TradingDays(i + step, step, totalDays, startDow) == all
    ensures IsWeekend(startDow, i) ==> offsets + TradingDays(i + step, step, totalDays, startDow) == all
  {
    var rest := TradingDays(i + step, step, totalDays, startDow);
    if !IsWeekend(startDow, i) {
      WeekdayUnfold(i, step, totalDays, startDow);
      assert offsets + ([i] + rest) == (offsets + [i]) + rest;
    } else {
      WeekendUnfold(i, step, totalDays, startDow);
    }
  }

  /** Past the end of the walk there is nothing left to emit. */
  lemma TradingDaysPast(i: nat, step: nat, totalDays: nat, startDow: int)
    requires step >= 1 && i > totalDays
    ensures TradingDays(i, step, totalDays, startDow) == []
  {
  }

  /** The four draws of one daily point: the day's change, then the open, high and low
      spreads. */
  method DrawDailyBar(random: Rng) returns (change: real, open: real, high: real, low: real)
    requires random.Valid()
    modifies random
    ensures random.Valid() && random.draws == old(random.draws) + 4
    ensures 0.0 <= change <= 1.0 && 0.0 <= open <= 1.0 && 0.0 <= high <= 1.0 && 0.0 <= low <= 1.0
  {
    change := random.Next();
    open := random.Next();
    high := random.Next();
    low := random.Next();
  }

  /** The daily loop: day offsets `0, interval, 2 * interval, ...` up to `totalDays`,
      weekends skipped. Every emitted point draws four random numbers (change, open,
      high, low); a skipped weekend draws none. */
  method DailyOffsets(totalDays: nat, iv: Interval, startDow: int, random: Rng) returns (offsets: seq<nat>)
    requires random.Valid()
    modifies random
    ensures offsets == TradingDays(0, Stride(iv, totalDays), totalDays, startDow)
    ensures random.Valid() && random.draws == old(random.draws) + 4 * |offsets|
  {
    offsets := [];
    var step := Stride(iv, totalDays);
    ghost var all := TradingDays(0, step, totalDays, startDow);
    ghost var drawn := random.draws;
    var i := 0;
    while i <= totalDays
      invariant offsets + TradingDays(i, step, totalDays, startDow) == all
      invariant random.Valid() && random.draws == drawn + 4 * |offsets|
      decreases totalDays + 1 - i
    {
      DailyStep(offsets, i, step, totalDays, startDow, all);
      if !IsWeekend(startDow, i) {
        var change, open, high, low := DrawDailyBar(random);
        offsets := offsets + [i];
      }
      i := i + step;
    }
    TradingDaysPast(i, step, totalDays, startDow);
  }

  /** What the daily loop emits: weekdays only, within the walk, ascending, and every
      weekday `n * interval` up to `totalDays`, none missed. */
  lemma DailyOffsetsAreTradingDays(totalDays: nat, iv: Interval, startDow: int)
    ensures var step := Stride(iv, totalDays);
      var r := TradingDays(0, step, totalDays, startDow);
      (forall x :: x in r ==> x <= totalDays && !IsWeekend(startDow, x)) &&
      StrictlyIncreasing(r) &&
      (forall n: nat :: GridPoint(0, step, n) <= totalDays && !IsWeekend(startDow, GridPoint(0, step, n)) ==>
        GridPoint(0, step, n) in r)
  {
    var step := Stride(iv, totalDays);
    var visits := Visits(0, step, totalDays);
    VisitsAreGrid(0, step, totalDays);
    assert StrictlyIncreasing(visits);
    FilterKeepsIncreasing(visits, (d: nat) => !IsWeekend(startDow, d));
    forall n: nat | GridPoint(0, step, n) <= totalDays && !IsWeekend(startDow, GridPoint(0, step, n))
      ensures GridPoint(0, step, n) in visits
    {
      assert visits[n] == GridPoint(0, step, n);
    }
  }

  /** The intraday loop: 78 points, five minutes (300000 ms) apart from the 09:30
      market open, each drawing one random number. */
  method IntradayTimestamps(marketOpenMs: int, random: Rng) returns (times: seq<int>)
    requires random.Valid()
    modifies random
    ensures |times| == 78
    ensures forall i :: 0 <= i < |times| ==> times[i] == marketOpenMs + i * 300000
    ensures random.Valid() && random.draws == old(random.draws) + 78
  {
    times := [];
    var i := 0;
    while i < 78
      invariant 0 <= i <= 78 && |times| == i
      invariant forall k :: 0 <= k < i ==> times[k] == marketOpenMs + k * 300000
      invariant random.Valid() && random.draws == old(random.draws) + i
    {
      var change := random.Next();
      times := times + [marketOpenMs + i * 5 * 60000];
      i := i + 1;
    }
  }

  /** The calendar facts the generator reads from a `Date`. */
  datatype Day = Day(ms: int, dayOfMonth: int, dayOfWeek: int, marketOpenMs: int)

  datatype Series = IntradaySeries(times: seq<int>) | DailySeries(offsets: seq<nat>)

  /** `generateIndexTimeSeries`, without the values of the walk. `end` is the end date
      (the clock when none is given); `customStart` the parsed custom start date. */
  method GenerateIndexTimeSeries(indexId: string, duration: Duration, customStart: Option<Day>, end: Day)
    returns (series: Series, random: Rng)
    ensures random.initial == Seed(indexId, end.dayOfMonth) && random.Valid()
    ensures duration == OneDay <==> series.IntradaySeries?
    ensures series.IntradaySeries? ==>
      |series.times| == 78 && random.draws == 78 &&
      forall i :: 0 <= i < 78 ==> series.times[i] == end.marketOpenMs + i * 300000
    ensures series.DailySeries? ==> random.draws == 4 * |series.offsets|
    ensures series.DailySeries? && !(duration == Custom && customStart.Some?) ==>
      series.offsets == TradingDays(0, Stride(StepInterval(WalkLength(duration), DurationDays(duration)), WalkLength(duration)),
                                    WalkLength(duration), end.dayOfWeek - DurationDays(duration))
    ensures series.DailySeries? && duration == Custom && customStart.Some? ==>
      var budget := MinInt(DaysBetween(customStart.value.ms, end.ms), 1825);
      series.offsets == TradingDays(0, Stride(StepInterval(30, budget), 30), 30, customStart.value.dayOfWeek)
  {
    var startMs := if customStart.Some? then Some(customStart.value.ms) else None;
    var dataPoints := PointBudget(duration, if duration == Custom then startMs else None, end.ms);
    random := new Rng(Seed(indexId, end.dayOfMonth));
    var totalDays := WalkLength(duration);
    if duration == OneDay {
      var times := IntradayTimestamps(end.marketOpenMs, random);
      series := IntradaySeries(times);
    } else {
      var startDow := if duration == Custom && customStart.Some? then customStart.value.dayOfWeek
                      else end.dayOfWeek - DurationDays(duration);
      var offsets := DailyOffsets(totalDays, StepInterval(totalDays, dataPoints), startDow, random);
      series := DailySeries(offsets);
    }
  }

  /** The OHLC high and low before rounding: the larger of open and close pushed up,
      the smaller pushed down, by a random share `r` of the day's volatility. */
  function High(open: real, close: real, r: real, dayVolatility: real): real
  {
    Max(open, close) * (1.0 + r * dayVolatility * 0.5)
  }

  function Low(open: real, close: real, r: real, dayVolatility: real): real
  {
    Min(open, close) * (1.0 - r * dayVolatility * 0.5)
  }

  /** For positive prices, the high is at least the open and the close, and the low at
      most both. */
  lemma OhlcBounds(open: real, close: real, r1: real, r2: real, dayVolatility: real)
    requires open > 0.0 && close > 0.0
    requires 0.0 <= r1 <= 1.0 && 0.0 <= r2 <= 1.0 && dayVolatility >= 0.0
    ensures High(open, close, r1, dayVolatility) >= Max(open, close) >= open
    ensures High(open, close, r1, dayVolatility) >= close
    ensures Low(open, close, r2, dayVolatility) <= Min(open, close) <= close
    ensures Low(open, close, r2, dayVolatility) <= open
  {
    var m := Max(open, close);
    var n := Min(open, close);
    var up := r1 * dayVolatility * 0.5;
    var down := r2 * dayVolatility * 0.5;
    NonNegativeProduct(r1, dayVolatility);
    NonNegativeProduct(r2, dayVolatility);
    assert up >= 0.0 && down >= 0.0;
    NonNegativeProduct(m, up);
    NonNegativeProduct(n, down);
    assert m * (1.0 + up) == m + m * up;
    assert n * (1.0 - down) == n - n * down;
  }

  lemma NonNegativeProduct(x: real, y: real)
    requires x >= 0.0 && y >= 0.0
    ensures x * y >= 0.0
  {
  }

  datatype PeriodChange = PeriodChange(change: real, changePercent: Option<real>)

  /** `getIndexPeriodChange` over the series' values: nothing for fewer than two points;
      otherwise the change from the first to the last value and its percentage of the
      first, each rounded to hundredths. A first value of 0 has no finite percentage
      (`None`). */
  function PeriodChangeOf(values: seq<real>): (r: PeriodChange)
    ensures |values| < 2 ==> r == PeriodChange(0.0, Some(0.0))
    ensures |values| >= 2 ==> r.change == Round2(values[|values| - 1] - values[0])
    ensures |values| >= 2 && values[0] != 0.0 ==>
      r.changePercent == Some(Round2((values[|values| - 1] - values[0]) / values[0] * 100.0))
    ensures |values| >= 2 && values[0] == 0.0 ==> r.changePercent == None
  {
    if |values| < 2 then PeriodChange(0.0, Some(0.0))
    else
      var change := values[|values| - 1] - values[0];
      PeriodChange(Round2(change), if values[0] != 0.0 then Some(Round2(change / values[0] * 100.0)) else None)
  }

  /** With a positive first value, the change and its percentage never disagree in
      sign: a rise is reported as a non-negative change and percentage, a fall as a
      non-positive one. */
  lemma PeriodChangeSigns(values: seq<real>)
    requires |values| >= 2 && values[0] > 0.0
    ensures var r := PeriodChangeOf(values);
      (values[|values| - 1] >= values[0] ==> r.change >= 0.0 && r.changePercent.value >= 0.0) &&
      (values[|values| - 1] <= values[0] ==> r.change <= 0.0 && r.changePercent.value <= 0.0)
  {
    var change := values[|values| - 1] - values[0];
    var pct := change / values[0] * 100.0;
    if change >= 0.0 {
      assert pct >= 0.0;
      Round2NonNegative(change);
      Round2NonNegative(pct);
    }
    if change <= 0.0 {
      assert pct <= 0.0;
      Round2NonPositive(change);
      Round2NonPositive(pct);
    }
  }

  lemma Round2NonNegative(x: real)
    requires x >= 0.0
    ensures Round2(x) >= 0.0
  {
    assert Round(x * 100.0) >= 0;
  }

  lemma Round2NonPositive(x: real)
    requires x <= 0.0
    ensures Round2(x) <= 0.0
  {
    assert Round(x * 100.0) <= 0;
  }

  /** The `timestamp` fields of the news feed `newsItems`, in feed order. */
  const FeedTimestamps: seq<string> := [
    "2 hours ago", "4 hours ago", "5 hours ago", "6 hours ago", "8 hours ago",
    "10 hours ago", "12 hours ago", "14 hours ago", "1 day ago", "1 day ago",
    "1 day ago", "2 days ago"
  ]
}
