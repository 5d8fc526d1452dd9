/** src/utils/ordersMockData.ts: the allocation presets, the security price table,
    symbol lookup and search, and the broker commission bands. */
module OrdersMockData {
  import opened Prelude
  import opened OrderTypes

  const AllocationPresets: seq<AllocationPreset> := [
    AllocationPreset("manual", "Manual", []),
    AllocationPreset("ib-primary", "IB Primary (100%)", [
      AccountAllocation("ibkr-margin", "ibkr", 100.0)]),
    AllocationPreset("us-60-40", "US 60/40 Split", [
      AccountAllocation("ibkr-margin", "ibkr", 60.0),
      AccountAllocation("ibkr-ira", "ibkr", 40.0)]),
    AllocationPreset("equal-split", "Equal Split", [
      AccountAllocation("ibkr-margin", "ibkr", 50.0),
      AccountAllocation("degiro-cash", "degiro", 50.0)]),
    AllocationPreset("tax-optimized", "Tax Optimized", [
      AccountAllocation("ibkr-ira", "ibkr", 70.0),
      AccountAllocation("ibkr-margin", "ibkr", 30.0)])
  ]

  const SecurityPrices: seq<SecurityPrice> := [
    SecurityPrice("NVDA", "NVIDIA Corporation", 875.28, 12.45, 1.44),
    SecurityPrice("AAPL", "Apple Inc.", 198.50, -1.23, -0.62),
    SecurityPrice("MSFT", "Microsoft Corporation", 425.22, 3.78, 0.90),
    SecurityPrice("GOOGL", "Alphabet Inc.", 175.98, 2.15, 1.24),
    SecurityPrice("AMZN", "Amazon.com Inc.", 186.75, -0.89, -0.47),
    SecurityPrice("META", "Meta Platforms Inc.", 505.75, 8.32, 1.67),
    SecurityPrice("TSLA", "Tesla Inc.", 248.50, -5.67, -2.23),
    SecurityPrice("JPM", "JPMorgan Chase & Co.", 198.45, 1.12, 0.57),
    SecurityPrice("V", "Visa Inc.", 278.90, 0.45, 0.16),
    SecurityPrice("JNJ", "Johnson & Johnson", 156.78, -0.34, -0.22),
    SecurityPrice("WMT", "Walmart Inc.", 165.23, 2.11, 1.29),
    SecurityPrice("PG", "Procter & Gamble Co.", 162.45, 0.78, 0.48),
    SecurityPrice("HD", "Home Depot Inc.", 345.67, -2.34, -0.67),
    SecurityPrice("BAC", "Bank of America Corp.", 37.89, 0.23, 0.61),
    SecurityPrice("DIS", "Walt Disney Co.", 112.34, 1.56, 1.41),
    SecurityPrice("BTC", "Bitcoin", 67245.50, 1234.00, 1.87),
    SecurityPrice("ETH", "Ethereum", 3456.78, -45.23, -1.29),
    SecurityPrice("SOL", "Solana", 145.67, 8.90, 6.51),
    SecurityPrice("EUR/USD", "Euro / US Dollar", 1.0845, 0.0023, 0.21),
    SecurityPrice("GBP/USD", "British Pound / US Dollar", 1.2678, -0.0045, -0.35),
    SecurityPrice("USD/JPY", "US Dollar / Japanese Yen", 154.23, 0.56, 0.36),
    SecurityPrice("XAU", "Gold (oz)", 2345.67, 12.34, 0.53),
    SecurityPrice("XAG", "Silver (oz)", 28.45, 0.67, 2.41)
  ]

  /** The most results the search returns. */
  const SearchLimit := 8

  /** `getSecurityPrice`: the first entry whose symbol equals the argument ignoring case. */
  function GetSecurityPrice(symbol: string): (r: Option<SecurityPrice>)
    ensures r.Some? ==> r.value in SecurityPrices && Upper(r.value.symbol) == Upper(symbol)
    ensures r.Some? ==> exists k :: (0 <= k < |SecurityPrices| && SecurityPrices[k] == r.value &&
      forall j :: 0 <= j < k ==> Upper(SecurityPrices[j].symbol) != Upper(symbol))
    ensures r.None? ==> forall s :: s in SecurityPrices ==> Upper(s.symbol) != Upper(symbol)
  {
    Find(SecurityPrices, (s: SecurityPrice) => Upper(s.symbol) == Upper(symbol))
  }

  /** The search predicate: the lower-cased query occurs in the lower-cased symbol or name. */
  predicate MatchesQuery(s: SecurityPrice, lowerQuery: string): (b: bool)
    ensures lowerQuery == [] ==> b
    ensures b ==> |lowerQuery| <= |s.symbol| || |lowerQuery| <= |s.name|
  {
    assert lowerQuery == [] ==> OccursAt(Lower(s.symbol), lowerQuery, 0);
    Includes(Lower(s.symbol), lowerQuery) || Includes(Lower(s.name), lowerQuery)
  }

  /** Every entry of `table` that matches, in table order. */
  function Matching(table: seq<SecurityPrice>, lowerQuery: string): (r: seq<SecurityPrice>)
    ensures forall s :: s in r <==> s in table && MatchesQuery(s, lowerQuery)
  {
    Filter(table, (s: SecurityPrice) => MatchesQuery(s, lowerQuery))
  }

  /** `searchSecurities`: at most eight matching entries, in table order. */
  function SearchSecurities(query: string): (r: seq<SecurityPrice>)
    ensures query == [] ==> r == []
    ensures |r| <= SearchLimit
    ensures forall s :: s in r ==> s in SecurityPrices && MatchesQuery(s, Lower(query))
    ensures IsSubsequence(r, SecurityPrices)
    ensures query != [] ==> forall s :: s in SecurityPrices && MatchesQuery(s, Lower(query)) ==> s in r || |r| == SearchLimit
    ensures query != [] ==> r == Take(Matching(SecurityPrices, Lower(query)), SearchLimit)
  {
    SearchTable(SecurityPrices, query)
  }

  /** The search over any table, so that the table's contents stay out of the proof. */
  function SearchTable(table: seq<SecurityPrice>, query: string): (r: seq<SecurityPrice>)
    ensures query == [] ==> r == []
    ensures |r| <= SearchLimit
    ensures forall s :: s in r ==> s in table && MatchesQuery(s, Lower(query))
    ensures IsSubsequence(r, table)
    ensures query != [] ==> forall s :: s in table && MatchesQuery(s, Lower(query)) ==> s in r || |r| == SearchLimit
    ensures query != [] ==> r == Take(Matching(table, Lower(query)), SearchLimit)
  {
    if |query| < 1 then []
    else
      var lowerQuery := Lower(query);
      var matching := Matching(table, lowerQuery);
      FilterIsSubsequence(table, (s: SecurityPrice) => MatchesQuery(s, lowerQuery));
      SubsequencePrefix(matching, table, |Take(matching, SearchLimit)|);
      assert forall s :: s in Take(matching, SearchLimit) ==> s in matching;
      Take(matching, SearchLimit)
  }

  /** `getAllocationPreset`: the preset with this id, if any. */
  function GetAllocationPreset(presetId: string): (r: Option<AllocationPreset>)
    ensures r.Some? ==> r.value in AllocationPresets && r.value.id == presetId
    ensures r.None? ==> forall p :: p in AllocationPresets ==> p.id != presetId
  {
    Find(AllocationPresets, (p: AllocationPreset) => p.id == presetId)
  }

  function PresetPercentages(p: AllocationPreset): (r: seq<real>)
    ensures |r| == |p.allocations| && forall i :: 0 <= i < |r| ==> r[i] == p.allocations[i].percentage
  {
    seq(|p.allocations|, i requires 0 <= i < |p.allocations| => p.allocations[i].percentage)
  }

  /** The presets satisfy the `percentage` field's rule "must sum to 100";
      'manual' is the empty preset that keeps the current allocations. */
  lemma PresetsSumTo100()
    ensures forall p :: p in AllocationPresets && p.id == "manual" ==> p.allocations == []
    ensures forall p :: p in AllocationPresets && p.id != "manual" ==> Sum(PresetPercentages(p)) == 100.0
  {
    forall i | 1 <= i < |AllocationPresets|
      ensures Sum(PresetPercentages(AllocationPresets[i])) == 100.0
    {
      var s := PresetPercentages(AllocationPresets[i]);
      if i == 1 {
        assert s == [100.0] && s[1..] == [];
        assert Sum(s) == s[0] + Sum(s[1..]);
      } else {
        assert |s| == 2 && s[0] + s[1] == 100.0;
        assert s[1..][1..] == [];
        assert Sum(s[1..]) == s[1] + Sum(s[1..][1..]);
        assert Sum(s) == s[0] + Sum(s[1..]);
      }
    }
  }

  /** No preset gives an account a negative share. */
  lemma PresetsNonNegative()
    ensures forall p, i :: p in AllocationPresets && 0 <= i < |p.allocations| ==> p.allocations[i].percentage >= 0.0
  {
    forall k, i | 0 <= k < |AllocationPresets| && 0 <= i < |AllocationPresets[k].allocations|
      ensures AllocationPresets[k].allocations[i].percentage >= 0.0
    {
    }
  }

  datatype CommissionRate = CommissionRate(perShare: real, minimum: real, maximum: real)

  /** `brokerCommissions[brokerId]`, `None` for a broker that is not in the table. */
  function BrokerCommission(brokerId: string): (r: Option<CommissionRate>)
    ensures r.Some? ==> r.value.perShare >= 0.0 && r.value.minimum >= 0.0
    ensures r.Some? && r.value.perShare == 0.0 ==> r.value.minimum == r.value.maximum
  {
    match brokerId
    case "ibkr" => Some(CommissionRate(0.005, 1.00, 50.00))
    case "degiro" => Some(CommissionRate(0.00, 0.50, 0.50))
    case "saxo" => Some(CommissionRate(0.01, 3.00, 30.00))
    case "coinbase" => Some(CommissionRate(0.00, 0.00, 0.00))
    case "kraken" => Some(CommissionRate(0.00, 0.00, 0.00))
    case "oanda" => Some(CommissionRate(0.00, 0.00, 0.00))
    case "bullionvault" => Some(CommissionRate(0.00, 5.00, 5.00))
    case "polymarket" => Some(CommissionRate(0.00, 0.00, 0.00))
    case "kalshi" => Some(CommissionRate(0.00, 0.00, 0.00))
    case _ => None
  }

  /** `calculateCommission`: shares times the per-share rate, clamped into the broker's
      [minimum, maximum] band; 0 for an unknown broker. */
  function CalculateCommission(brokerId: string, shares: real): (c: real)
    ensures BrokerCommission(brokerId).None? ==> c == 0.0
    ensures BrokerCommission(brokerId).Some? ==>
      BrokerCommission(brokerId).value.minimum <= c <= BrokerCommission(brokerId).value.maximum
    ensures BrokerCommission(brokerId).Some? ==>
      var rate := BrokerCommission(brokerId).value;
      rate.minimum <= shares * rate.perShare <= rate.maximum ==> c == shares * rate.perShare
    ensures BrokerCommission(brokerId).Some? ==>
      var rate := BrokerCommission(brokerId).value;
      c == Max(rate.minimum, Min(rate.maximum, shares * rate.perShare))
    ensures c >= 0.0
  {
    match BrokerCommission(brokerId)
    case None => 0.0
    case Some(rate) =>
      var calculated := shares * rate.perShare;
      Max(rate.minimum, Min(rate.maximum, calculated))
  }

  /** Every band in the table is well formed. */
  lemma CommissionBandsWellFormed(brokerId: string)
    requires BrokerCommission(brokerId).Some?
    ensures 0.0 <= BrokerCommission(brokerId).value.minimum <= BrokerCommission(brokerId).value.maximum
  {
  }

  /** The flat-fee brokers charge their fee whatever the share count. */
  lemma FlatFeeBrokers(shares: real)
    ensures CalculateCommission("degiro", shares) == 0.50
    ensures CalculateCommission("bullionvault", shares) == 5.00
  {
  }
}
