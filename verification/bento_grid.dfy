/** src/components/portfolio/BentoGrid.tsx: the asset-class cards in their configured
    order, with their configured size. */
module BentoGrid {
  import opened Prelude
  import Sorting

  datatype AssetClass = Equities | Fx | FixedIncome | Crypto | Metals | PredictionMarkets

  /** An asset-class summary (the fields the grid reads). */
  datatype AssetClassSummary = AssetClassSummary(assetClass: AssetClass, displayName: string, totalValue: real)

  datatype CardSize = Default | Wide | Tall | Large

  datatype BentoCardConfig = BentoCardConfig(assetClass: AssetClass, size: CardSize, order: real)

  /** The order of classes without a usable configured order. */
  const Unordered: real := 99.0

  function ConfigFor(cardConfig: seq<BentoCardConfig>, ac: AssetClass): Option<BentoCardConfig>
  {
    Find(cardConfig, (c: BentoCardConfig) => c.assetClass == ac)
  }

  /** `configA?.order || 99`: the first entry's order; 99 without an entry, and also for
      an order of 0, which `||` treats as missing. */
  function OrderKey(cardConfig: seq<BentoCardConfig>, ac: AssetClass): (k: real)
    ensures ConfigFor(cardConfig, ac).None? ==> k == Unordered
    ensures ConfigFor(cardConfig, ac).Some? && ConfigFor(cardConfig, ac).value.order == 0.0 ==> k == Unordered
    ensures ConfigFor(cardConfig, ac).Some? && ConfigFor(cardConfig, ac).value.order != 0.0 ==>
      k == ConfigFor(cardConfig, ac).value.order
  {
    match ConfigFor(cardConfig, ac)
    case None => Unordered
    case Some(c) => if c.order == 0.0 then Unordered else c.order
  }

  /** An order configured as 0 sorts exactly like a class with no entry at all. */
  lemma ZeroOrderSortsAsMissing(cardConfig: seq<BentoCardConfig>, ac: AssetClass, other: AssetClass)
    requires ConfigFor(cardConfig, ac).Some? && ConfigFor(cardConfig, ac).value.order == 0.0
    requires ConfigFor(cardConfig, other).None?
    ensures OrderKey(cardConfig, ac) == OrderKey(cardConfig, other) == Unordered
  {
  }

  /** The comparator `keyA - keyB`, as "may stay before". */
  function ByOrder(cardConfig: seq<BentoCardConfig>): (AssetClassSummary, AssetClassSummary) -> bool
  {
    (a: AssetClassSummary, b: AssetClassSummary) => OrderKey(cardConfig, a.assetClass) <= OrderKey(cardConfig, b.assetClass)
  }

  /** `sortedAssetClasses`: a sorted copy; the input is a value and stays as it was.
      The sort is stable, so classes with the same order key (for instance several
      without a configured order) keep the order in which they were passed. */
  method SortedAssetClasses(assetClasses: seq<AssetClassSummary>, cardConfig: seq<BentoCardConfig>)
    returns (sorted: seq<AssetClassSummary>)
    ensures multiset(sorted) == multiset(assetClasses)
    ensures Sorting.StablySorted(sorted, assetClasses, ByOrder(cardConfig))
    ensures forall i, j :: 0 <= i < j < |sorted| ==>
      OrderKey(cardConfig, sorted[i].assetClass) <= OrderKey(cardConfig, sorted[j].assetClass)
  {
    sorted := Sorting.SortedCopy(assetClasses, ByOrder(cardConfig));
    assert Sorting.SortedBy(sorted, ByOrder(cardConfig));
  }

  /** A rendered card: its size and its animation delay. */
  datatype Card = Card(summary: AssetClassSummary, size: CardSize, delay: nat)

  /** `config?.size || 'default'`. */
  function SizeFor(cardConfig: seq<BentoCardConfig>, ac: AssetClass): (s: CardSize)
    ensures ConfigFor(cardConfig, ac).None? ==> s == Default
    ensures ConfigFor(cardConfig, ac).Some? ==> s == ConfigFor(cardConfig, ac).value.size
  {
    match ConfigFor(cardConfig, ac)
    case None => Default
    case Some(c) => c.size
  }

  /** The cards, one per sorted class, the delay being the position. */
  function Cards(sorted: seq<AssetClassSummary>, cardConfig: seq<BentoCardConfig>): (r: seq<Card>)
    ensures |r| == |sorted|
    ensures forall i :: 0 <= i < |r| ==>
      r[i].summary == sorted[i] && r[i].delay == i && r[i].size == SizeFor(cardConfig, sorted[i].assetClass)
  {
    seq(|sorted|, i requires 0 <= i < |sorted| => Card(sorted[i], SizeFor(cardConfig, sorted[i].assetClass), i))
  }

  /** The whole grid: every class gets exactly one card, in configured order (classes
      with equal keys in their given order), and the delays count up from 0. */
  method Render(assetClasses: seq<AssetClassSummary>, cardConfig: seq<BentoCardConfig>) returns (cards: seq<Card>)
    ensures |cards| == |assetClasses|
    ensures Sorting.StablySorted(SummariesOf(cards), assetClasses, ByOrder(cardConfig))
    ensures multiset(SummariesOf(cards)) == multiset(assetClasses)
    ensures forall i :: 0 <= i < |cards| ==> cards[i].delay == i
    ensures forall i, j :: 0 <= i < j < |cards| ==>
      OrderKey(cardConfig, cards[i].summary.assetClass) <= OrderKey(cardConfig, cards[j].summary.assetClass)
  {
    var sorted := SortedAssetClasses(assetClasses, cardConfig);
    cards := Cards(sorted, cardConfig);
    assert SummariesOf(cards) == sorted;
    assert |sorted| == |multiset(sorted)| == |multiset(assetClasses)| == |assetClasses|;
  }

  function SummariesOf(cards: seq<Card>): (r: seq<AssetClassSummary>)
    ensures |r| == |cards| && forall i :: 0 <= i < |cards| ==> r[i] == cards[i].summary
  {
    seq(|cards|, i requires 0 <= i < |cards| => cards[i].summary)
  }
}
