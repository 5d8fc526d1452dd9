/** src/hooks/useAnimatedNumber.ts: the easing curve, one animation frame of the hook,
    and the compact and percent formats. `toFixed` and `Math.pow` are not modelled:
    they appear as parameters (`fixed2`, `twoToMinus10t`). */
module AnimatedNumber {
  import opened Prelude

  /** `easeOutExpo(t)`, with `twoToMinus10t` standing for `Math.pow(2, -10 * t)`. */
  function EaseOutExpo(t: real, twoToMinus10t: real): (e: real)
    ensures t == 1.0 ==> e == 1.0
    ensures t != 1.0 && 0.0 < twoToMinus10t <= 1.0 ==> 0.0 <= e < 1.0
  {
    if t == 1.0 then 1.0 else 1.0 - twoToMinus10t
  }

  /** The curve ends exactly at 1 whatever the power evaluates to, and stays below 1
      before the end (the power being positive). */
  lemma EaseEndsAtOne(t: real, twoToMinus10t: real)
    requires twoToMinus10t > 0.0
    ensures EaseOutExpo(1.0, twoToMinus10t) == 1.0
    ensures t != 1.0 ==> EaseOutExpo(t, twoToMinus10t) < 1.0
  {
  }

  /** `Math.min(elapsed / duration, 1)`. */
  function Progress(elapsed: real, duration: real): (p: real)
    requires duration > 0.0
    ensures p <= 1.0
    ensures p == 1.0 <==> elapsed >= duration
    ensures elapsed >= 0.0 ==> p >= 0.0
  {
    Min(elapsed / duration, 1.0)
  }

  /** One run of the animation: the value it starts from, the target, and the time of
      the first frame once it has arrived. */
  class Animation {
    const startValue: real
    const targetValue: real
    const duration: real
    var startTime: Option<real>
    var displayValue: real
    var finished: bool

    constructor(startValue: real, targetValue: real, duration: real)
      requires duration > 0.0
      ensures this.startValue == startValue && this.targetValue == targetValue && this.duration == duration
      ensures startTime == None && displayValue == startValue && !finished
    {
      this.startValue := startValue;
      this.targetValue := targetValue;
      this.duration := duration;
      startTime := None;
      displayValue := startValue;
      finished := false;
    }

    /** `animate(timestamp)`: the first frame fixes the start time; the value moves by the
        eased progress; another frame is requested exactly while the progress is below 1.
        `twoToMinus10t` is `Math.pow(2, -10 * progress)`. */
    method Frame(timestamp: real, twoToMinus10t: real) returns (requestAnother: bool)
      requires duration > 0.0
      modifies this
      ensures startTime == (if old(startTime).None? then Some(timestamp) else old(startTime))
      ensures var p := Progress(timestamp - startTime.value, duration);
        requestAnother == (p < 1.0) &&
        displayValue == startValue + (targetValue - startValue) * EaseOutExpo(p, twoToMinus10t)
      ensures !requestAnother ==> displayValue == targetValue
      ensures finished == !requestAnother
    {
      if startTime.None? {
        startTime := Some(timestamp);
      }
      var elapsed := timestamp - startTime.value;
      var progress := Progress(elapsed, duration);
      var eased := EaseOutExpo(progress, twoToMinus10t);
      displayValue := startValue + (targetValue - startValue) * eased;
      requestAnother := progress < 1.0;
      finished := !requestAnother;
    }
  }

  /** The unit a compact amount is printed in. */
  datatype Suffix = Billions | Millions | Thousands | Units

  function SuffixText(s: Suffix): string
  {
    match s
    case Billions => "B"
    case Millions => "M"
    case Thousands => "K"
    case Units => ""
  }

  /** The unit `formatCompact` picks and the value it prints in that unit. */
  function CompactParts(value: real): (r: (real, Suffix))
    ensures value >= 1000000000.0 ==> r == (value / 1000000000.0, Billions)
    ensures 1000000.0 <= value < 1000000000.0 ==> r == (value / 1000000.0, Millions)
    ensures 1000.0 <= value < 1000000.0 ==> r == (value / 1000.0, Thousands)
    ensures value < 1000.0 ==> r == (value, Units)
  {
    if value >= 1000000000.0 then (value / 1000000000.0, Billions)
    else if value >= 1000000.0 then (value / 1000000.0, Millions)
    else if value >= 1000.0 then (value / 1000.0, Thousands)
    else (value, Units)
  }

  /** A scaled amount is at least one unit, and below a thousand units except for
      billions; every negative amount is printed unscaled. */
  lemma CompactScale(value: real)
    ensures CompactParts(value).1 != Units ==> CompactParts(value).0 >= 1.0
    ensures CompactParts(value).1 == Millions || CompactParts(value).1 == Thousands ==> CompactParts(value).0 < 1000.0
    ensures value < 0.0 ==> CompactParts(value) == (value, Units)
  {
  }

  /** `formatCompact`: "$", the amount to two decimals (`fixed2`), and the unit. */
  function FormatCompact(value: real, fixed2: real -> string): (s: string)
    ensures |s| >= 1 && s[0] == '$'
    ensures s == "$" + fixed2(CompactParts(value).0) + SuffixText(CompactParts(value).1)
  {
    var parts := CompactParts(value);
    "$" + fixed2(parts.0) + SuffixText(parts.1)
  }

  /** `formatPercent`: a '+' before a non-negative value, then the value to two decimals
      and '%'. */
  function FormatPercent(value: real, fixed2: real -> string): (s: string)
    ensures |s| >= 1 && s[|s| - 1] == '%'
    ensures value >= 0.0 ==> s == "+" + fixed2(value) + "%"
    ensures value < 0.0 ==> s == fixed2(value) + "%"
  {
    (if value >= 0.0 then "+" else "") + fixed2(value) + "%"
  }
}
