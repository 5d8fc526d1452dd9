/** src/components/predictions/SignalCard.tsx: the arithmetic and the colour rules of
    one prediction card. */
module SignalCard {
  import opened PredictionTypes
  import opened Prelude

  /** `calcRangePercent`: where `value` sits between `low` (0) and `high` (100); the
      middle, 50, for an empty range. Not clamped. */
  function CalcRangePercent(value: real, low: real, high: real): (r: real)
    ensures high == low ==> r == 50.0
    ensures high != low ==> r * (high - low) == (value - low) * 100.0
  {
    var range := high - low;
    if range == 0.0 then 50.0 else (value - low) / range * 100.0
  }

  /** The ends of the range map to 0 and 100, and the map is affine: the value half-way
      between low and high maps to 50. */
  lemma RangeEnds(low: real, high: real)
    requires low != high
    ensures CalcRangePercent(low, low, high) == 0.0
    ensures CalcRangePercent(high, low, high) == 100.0
    ensures CalcRangePercent((low + high) / 2.0, low, high) == 50.0
  {
    var d := high - low;
    CancelFactor(CalcRangePercent(low, low, high), 0.0, d);
    CancelFactor(CalcRangePercent(high, low, high), 100.0, d);
    assert ((low + high) / 2.0 - low) * 100.0 == 50.0 * d;
    CancelFactor(CalcRangePercent((low + high) / 2.0, low, high), 50.0, d);
  }

  lemma CancelFactor(r: real, c: real, d: real)
    requires d != 0.0 && r * d == c * d
    ensures r == c
  {
    assert (r - c) * d == 0.0;
  }

  /** Outside `[low, high]` (with `low < high`) the result leaves `[0, 100]`: nothing
      clamps it. */
  lemma RangeNotClamped(value: real, low: real, high: real)
    requires low < high
    ensures value < low ==> CalcRangePercent(value, low, high) < 0.0
    ensures value > high ==> CalcRangePercent(value, low, high) > 100.0
    ensures low <= value <= high ==> 0.0 <= CalcRangePercent(value, low, high) <= 100.0
  {
    var r := CalcRangePercent(value, low, high);
    if value < low {
      BelowRange(r, value, low, high);
    } else if value > high {
      AboveRange(r, value, low, high);
    } else {
      InsideRange(r, value, low, high);
    }
  }

  lemma BelowRange(r: real, value: real, low: real, high: real)
    requires low < high && value < low && r * (high - low) == (value - low) * 100.0
    ensures r < 0.0
  {
    var d := high - low;
    var p := r * d;
    assert p < 0.0 * d;
    CompareByFactor(r, 0.0, d);
  }

  lemma AboveRange(r: real, value: real, low: real, high: real)
    requires low < high && value > high && r * (high - low) == (value - low) * 100.0
    ensures r > 100.0
  {
    var d := high - low;
    var a := value - low;
    assert a * 100.0 > d * 100.0;
    var p := r * d;
    assert p > 100.0 * d;
    CompareByFactor(100.0, r, d);
  }

  lemma InsideRange(r: real, value: real, low: real, high: real)
    requires low < high && low <= value <= high && r * (high - low) == (value - low) * 100.0
    ensures 0.0 <= r <= 100.0
  {
    var d := high - low;
    var a := value - low;
    assert a * 100.0 <= d * 100.0;
    var p := r * d;
    assert p <= 100.0 * d;
    assert 0.0 * d <= p;
    CompareByFactor(r, 100.0, d);
    CompareByFactor(0.0, r, d);
  }

  /** Comparing two products with the same positive factor compares the other factors. */
  lemma CompareByFactor(x: real, y: real, d: real)
    requires d > 0.0
    ensures x * d < y * d ==> x < y
    ensures x * d <= y * d ==> x <= y
  {
    if x >= y {
      assert (x - y) * d >= 0.0;
    }
    if x > y {
      assert (x - y) * d > 0.0;
    }
  }

  /** The expected-return line: the sign is '+' exactly when the change is not
      negative, then the change as a percentage of the current price. At a current
      price of 0 the percentage has no finite value (JavaScript prints Infinity,
      -Infinity or NaN): `None`. */
  datatype ExpectedReturn = ExpectedReturn(plusSign: bool, percent: Option<real>)

  function ExpectedReturnOf(p: ModelPrediction): (e: ExpectedReturn)
    ensures e.plusSign <==> p.predictedPrice >= p.currentPrice
    ensures e.percent.None? <==> p.currentPrice == 0.0
    ensures e.percent.Some? ==> e.percent.value * p.currentPrice == (p.predictedPrice - p.currentPrice) * 100.0
  {
    var priceChange := p.predictedPrice - p.currentPrice;
    ExpectedReturn(priceChange >= 0.0, if p.currentPrice == 0.0 then None else Some(priceChange / p.currentPrice * 100.0))
  }

  /** For a positive price, the printed sign agrees with the sign of the percentage. */
  lemma SignMatchesPercent(p: ModelPrediction)
    requires p.currentPrice > 0.0
    ensures ExpectedReturnOf(p).percent.Some?
    ensures ExpectedReturnOf(p).plusSign <==> ExpectedReturnOf(p).percent.value >= 0.0
  {
    var e := ExpectedReturnOf(p);
    if e.percent.value < 0.0 {
      assert e.percent.value * p.currentPrice < 0.0;
    }
  }

  datatype Tone = Crimson | Emerald | Neutral

  /** The RSI colour: overbought above 70 is crimson, oversold below 30 emerald. */
  function RsiTone(rsi: real): (t: Tone)
    ensures t == Crimson <==> rsi > 70.0
    ensures t == Emerald <==> rsi < 30.0
    ensures t == Neutral <==> 30.0 <= rsi <= 70.0
  {
    if rsi > 70.0 then Crimson else if rsi < 30.0 then Emerald else Neutral
  }

  /** The momentum colour: above 0.3 is emerald, below -0.3 crimson. */
  function MomentumTone(momentum: real): (t: Tone)
    ensures t == Emerald <==> momentum > 0.3
    ensures t == Crimson <==> momentum < -0.3
    ensures t == Neutral <==> -0.3 <= momentum <= 0.3
  {
    if momentum > 0.3 then Emerald else if momentum < -0.3 then Crimson else Neutral
  }
}
