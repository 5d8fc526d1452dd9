/** The prediction records of src/types/predictions.ts (the fields the views read). */
module PredictionTypes {

  /** `'BUY' | 'SELL' | 'HOLD'`. */
  datatype Signal = Buy | Sell | Hold

  datatype PriceTarget = PriceTarget(low: real, mid: real, high: real)

  datatype ModelPrediction = ModelPrediction(
    id: string,
    symbol: string,
    sector: string,
    currentPrice: real,
    predictedPrice: real,
    confidence: real,
    signal: Signal,
    rsi: real,
    momentum: real,
    priceTarget: PriceTarget)

  /** `SectorPrediction`: the signal counts of a sector and its top picks. */
  datatype SectorPrediction = SectorPrediction(
    sector: string,
    buySignals: nat,
    sellSignals: nat,
    holdSignals: nat,
    topPicks: seq<string>)
}
