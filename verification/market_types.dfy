/** The market records of src/types/markets.ts and the `Duration` union of
    src/utils/marketsMockData.ts that the markets views share. */
module MarketTypes {

  /** `'1D' | '1W' | '1M' | '6M' | '1Y' | '2Y' | '5Y' | 'custom'`. */
  datatype Duration = OneDay | OneWeek | OneMonth | SixMonths | OneYear | TwoYears | FiveYears | Custom

  /** The custom range as the date inputs hold it (ISO date strings). */
  datatype CustomRange = CustomRange(startDate: string, endDate: string)

  datatype Region = US | International | Emerging

  /** An index of the markets table (the fields the views read; the quotes and the
      sparkline are left out). */
  datatype MarketIndex = MarketIndex(id: string, symbol: string, name: string, region: Region)

  /** `AVAILABLE_INDICES`: the catalogue the "add index" menu offers, in its order. */
  const AvailableIndices: seq<MarketIndex> := [
    MarketIndex("sp500", "SPX", "S&P 500", US),
    MarketIndex("nasdaq", "IXIC", "NASDAQ Composite", US),
    MarketIndex("dowjones", "DJI", "Dow Jones", US),
    MarketIndex("russell2000", "RUT", "Russell 2000", US),
    MarketIndex("vix", "VIX", "CBOE Volatility", US),
    MarketIndex("us10y", "TNX", "10-Year Treasury", US),
    MarketIndex("ftse100", "UKX", "FTSE 100", International),
    MarketIndex("dax", "DAX", "DAX", International),
    MarketIndex("cac40", "CAC", "CAC 40", International),
    MarketIndex("nikkei", "NKY", "Nikkei 225", International),
    MarketIndex("hangseng", "HSI", "Hang Seng", International),
    MarketIndex("msciem", "EEM", "MSCI Emerging", Emerging),
    MarketIndex("shanghai", "SHCOMP", "Shanghai Composite", Emerging)
  ]

  datatype NewsCategory = Earnings | Market | Economy | Company

  /** A news item; `tickers` absent is the empty list. */
  datatype NewsItem = NewsItem(id: string, headline: string, timestamp: string, category: NewsCategory, tickers: seq<string>)
}
