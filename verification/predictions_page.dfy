/** src/components/predictions/PredictionsPage.tsx: the signal list under a filter and a
    sort key, the signal counts, and the high-confidence overview. The predictions
    themselves come from a mock table that is not part of this model; they are
    parameters here. */
module PredictionsPage {
  import opened Prelude
  import opened PredictionTypes
  import Sorting

  /** `'all' | 'buy' | 'sell' | 'hold'`. */
  datatype PredictionFilter = AllSignals | OnlyBuy | OnlySell | OnlyHold

  datatype SortKey = ByConfidence | ByReturn | BySymbol

  /** `p.signal.toLowerCase() === signalFilter`, or everything for 'all'. */
  predicate Matches(filter: PredictionFilter, p: ModelPrediction): (b: bool)
    ensures filter == AllSignals ==> b
    ensures filter == OnlyBuy ==> (b <==> p.signal == Buy)
    ensures filter == OnlySell ==> (b <==> p.signal == Sell)
    ensures filter == OnlyHold ==> (b <==> p.signal == Hold)
  {
    match filter
    case AllSignals => true
    case OnlyBuy => p.signal == Buy
    case OnlySell => p.signal == Sell
    case OnlyHold => p.signal == Hold
  }

  /** Each prediction passes exactly one of the 'buy', 'sell' and 'hold' filters. */
  lemma SignalFiltersPartition(p: ModelPrediction)
    ensures Matches(OnlyBuy, p) || Matches(OnlySell, p) || Matches(OnlyHold, p)
    ensures !(Matches(OnlyBuy, p) && Matches(OnlySell, p))
    ensures !(Matches(OnlyBuy, p) && Matches(OnlyHold, p))
    ensures !(Matches(OnlySell, p) && Matches(OnlyHold, p))
  {
  }

  /** `|predictedPrice - currentPrice| / currentPrice`, the size of the expected return
      (0 for a zero price, where JavaScript has no finite value). */
  function AbsReturn(p: ModelPrediction): (r: real)
    ensures r >= 0.0
    ensures p.currentPrice == 0.0 ==> r == 0.0
    ensures p.currentPrice != 0.0 ==>
      r * p.currentPrice == p.predictedPrice - p.currentPrice || r * p.currentPrice == p.currentPrice - p.predictedPrice
  {
    if p.currentPrice == 0.0 then 0.0
    else
      var ret := (p.predictedPrice - p.currentPrice) / p.currentPrice;
      if ret < 0.0 then -ret else ret
  }

  /** Code-unit order on strings, standing in for `localeCompare`. */
  predicate StringLe(a: string, b: string)
  {
    if a == [] then true
    else if b == [] then false
    else a[0] < b[0] || (a[0] == b[0] && StringLe(a[1..], b[1..]))
  }

  lemma {:induction false} StringLeTotal(a: string, b: string)
    ensures StringLe(a, b) || StringLe(b, a)
  {
    if a != [] && b != [] && a[0] == b[0] {
      StringLeTotal(a[1..], b[1..]);
    }
  }

  lemma {:induction false} StringLeTransitive(a: string, b: string, c: string)
    requires StringLe(a, b) && StringLe(b, c)
    ensures StringLe(a, c)
  {
    if a != [] && b != [] && c != [] && a[0] == b[0] && b[0] == c[0] {
      StringLeTransitive(a[1..], b[1..], c[1..]);
    }
  }

  /** The comparator of each sort key as "may stay before": confidence and return
      descending (`b - a`), symbol ascending. */
  function Le(key: SortKey): (le: (ModelPrediction, ModelPrediction) -> bool)
    ensures key == ByConfidence ==> forall a, b :: le(a, b) <==> a.confidence >= b.confidence
    ensures key == ByReturn ==> forall a, b :: le(a, b) <==> AbsReturn(a) >= AbsReturn(b)
    ensures key == BySymbol ==> forall a, b :: le(a, b) <==> StringLe(a.symbol, b.symbol)
  {
    match key
    case ByConfidence => (a: ModelPrediction, b: ModelPrediction) => a.confidence >= b.confidence
    case ByReturn => (a: ModelPrediction, b: ModelPrediction) => AbsReturn(a) >= AbsReturn(b)
    case BySymbol => (a: ModelPrediction, b: ModelPrediction) => StringLe(a.symbol, b.symbol)
  }

  lemma LeIsTotalPreorder(key: SortKey)
    ensures Sorting.TotalPreorder(Le(key))
  {
    if key == BySymbol {
      forall a: ModelPrediction, b: ModelPrediction
        ensures Le(key)(a, b) || Le(key)(b, a)
      {
        StringLeTotal(a.symbol, b.symbol);
      }
      forall a: ModelPrediction, b: ModelPrediction, c: ModelPrediction | Le(key)(a, b) && Le(key)(b, c)
        ensures Le(key)(a, c)
      {
        StringLeTransitive(a.symbol, b.symbol, c.symbol);
      }
    }
  }

  function Selected(predictions: seq<ModelPrediction>, filter: PredictionFilter): (r: seq<ModelPrediction>)
    ensures filter == AllSignals ==> r == predictions
    ensures forall p :: p in r ==> p in predictions && Matches(filter, p)
  {
    if filter == AllSignals then predictions
    else Filter(predictions, (p: ModelPrediction) => Matches(filter, p))
  }

  /** `filteredPredictions`: the matching predictions, copied and sorted by the key.
      The result holds every matching prediction exactly as often as the table does,
      and predictions that tie on the key keep their table order. */
  method FilteredPredictions(predictions: seq<ModelPrediction>, filter: PredictionFilter, sortBy: SortKey)
    returns (r: seq<ModelPrediction>)
    ensures multiset(r) == multiset(Selected(predictions, filter))
    ensures forall p :: Matches(filter, p) ==> multiset(r)[p] == multiset(predictions)[p]
    ensures forall p :: p in r ==> Matches(filter, p)
    ensures Sorting.SortedBy(r, Le(sortBy))
    ensures Sorting.StablySorted(r, Selected(predictions, filter), Le(sortBy))
  {
    var filtered := Selected(predictions, filter);
    LeIsTotalPreorder(sortBy);
    r := Sorting.SortedCopy(filtered, Le(sortBy));
    forall p | Matches(filter, p)
      ensures multiset(r)[p] == multiset(predictions)[p]
    {
      if filter != AllSignals {
        FilterMultiset(predictions, (q: ModelPrediction) => Matches(filter, q), p);
      }
    }
    forall p | p in r
      ensures Matches(filter, p)
    {
      assert p in multiset(r);
      assert p in multiset(filtered);
    }
  }

  function CountSignal(predictions: seq<ModelPrediction>, signal: Signal): (n: nat)
    ensures n <= |predictions|
  {
    |Filter(predictions, (p: ModelPrediction) => p.signal == signal)|
  }

  datatype SignalCounts = SignalCounts(all: nat, buy: nat, sell: nat, hold: nat)

  /** `signalCounts`. Every signal is one of the three, so the three counts add up to
      the number of predictions. */
  function Counts(predictions: seq<ModelPrediction>): (c: SignalCounts)
    ensures c.all == |predictions|
    ensures c.buy + c.sell + c.hold == c.all
  {
    CountsAddUp(predictions);
    SignalCounts(|predictions|, CountSignal(predictions, Buy), CountSignal(predictions, Sell), CountSignal(predictions, Hold))
  }

  lemma {:induction false} CountsAddUp(predictions: seq<ModelPrediction>)
    ensures CountSignal(predictions, Buy) + CountSignal(predictions, Sell) + CountSignal(predictions, Hold) == |predictions|
  {
    if predictions != [] {
      CountsAddUp(predictions[1..]);
    }
  }

  /** The threshold of the overview; the heading reads "> 75%" while the filter keeps
      exactly 75% too. */
  const HighConfidence: real := 0.75

  const OverviewSize: nat := 4

  /** The predictions the overview draws from, in table order. */
  function HighConfidenceOnly(predictions: seq<ModelPrediction>): (r: seq<ModelPrediction>)
    ensures forall p :: p in r <==> p in predictions && p.confidence >= HighConfidence
  {
    Filter(predictions, (p: ModelPrediction) => p.confidence >= HighConfidence)
  }

  /** The overview: predictions with confidence at least 0.75, highest first, at most
      four. No high-confidence prediction left out is more confident than one shown,
      and among equally confident ones those earlier in the table come first: the
      overview is the first four of the stable sort. */
  method HighConfidenceSignals(predictions: seq<ModelPrediction>) returns (shown: seq<ModelPrediction>)
    ensures exists sorted ::
      Sorting.StablySorted(sorted, HighConfidenceOnly(predictions), Le(ByConfidence)) && shown == Take(sorted, OverviewSize)
    ensures |shown| == MinInt(OverviewSize, |HighConfidenceOnly(predictions)|)
    ensures forall p :: p in shown ==> p in predictions && p.confidence >= HighConfidence
    ensures forall i, j :: 0 <= i < j < |shown| ==> shown[i].confidence >= shown[j].confidence
    ensures forall p, q :: p in predictions && p.confidence >= HighConfidence && p !in shown && q in shown ==>
      q.confidence >= p.confidence
  {
    var high := HighConfidenceOnly(predictions);
    LeIsTotalPreorder(ByConfidence);
    var sorted := Sorting.SortedCopy(high, Le(ByConfidence));
    assert forall i, j :: 0 <= i < j < |sorted| ==> sorted[i].confidence >= sorted[j].confidence;
    shown := Take(sorted, OverviewSize);
    TopOfSorted(high, sorted, OverviewSize);
  }

  /** The first `n` of a copy sorted by descending confidence come from the original,
      and everything they leave out is at most as confident as each of them. */
  lemma TopOfSorted(high: seq<ModelPrediction>, sorted: seq<ModelPrediction>, n: nat)
    requires multiset(sorted) == multiset(high)
    requires forall i, j :: 0 <= i < j < |sorted| ==> sorted[i].confidence >= sorted[j].confidence
    ensures forall p :: p in Take(sorted, n) ==> p in high
    ensures forall p, q :: p in high && p !in Take(sorted, n) && q in Take(sorted, n) ==> q.confidence >= p.confidence
  {
    var shown := Take(sorted, n);
    forall p | p in shown
      ensures p in high
    {
      assert p in multiset(sorted);
    }
    forall p, q | p in high && p !in shown && q in shown
      ensures q.confidence >= p.confidence
    {
      assert p in multiset(sorted);
      var k :| 0 <= k < |sorted| && sorted[k] == p;
      var j :| 0 <= j < |shown| && shown[j] == q;
      assert j < k;
    }
  }
}
