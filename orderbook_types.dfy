/** The normalised order-book values that the venue clients emit and the
    display layer consumes. Prices and quantities are exact reals. */
module OrderbookTypes {
  import opened Wrappers

  /** One price level as a client emits it. */
  datatype Level = Level(price: real, quantity: real, timestamp: int, venue: string)

  /** A complete book as one message describes it. */
  datatype Snapshot = Snapshot(
    symbol: string,
    venue: string,
    timestamp: int,
    lastUpdateId: int,
    bids: seq<Level>,
    asks: seq<Level>)

  /** An incremental change: a level of quantity 0 removes its price. */
  datatype Update = Update(
    symbol: string,
    venue: string,
    timestamp: int,
    firstUpdateId: int,
    finalUpdateId: int,
    bids: seq<Level>,
    asks: seq<Level>)

  /** The book handed to the store, with its totals, spread and mid price. */
  datatype AggregatedOrderbook = AggregatedOrderbook(
    symbol: string,
    timestamp: int,
    bids: seq<Level>,
    asks: seq<Level>,
    totalBidVolume: real,
    totalAskVolume: real,
    spread: real,
    midPrice: real)

  /** Derived statistics of a book. `None` stands for a non-finite number
      (NaN or an infinity) in the source. */
  datatype Metrics = Metrics(
    spread: real,
    spreadPercentage: Option<real>,
    bidDepth: real,
    askDepth: real,
    imbalance: real,
    totalVolume: real,
    weightedMidPrice: Option<real>,
    lastUpdate: int)

  predicate NonNegativeQuantities(levels: seq<Level>) {
    forall i :: 0 <= i < |levels| ==> levels[i].quantity >= 0.0
  }

  /** The set of prices a list of levels mentions. */
  function PriceSet(levels: seq<Level>): set<real> {
    set i | 0 <= i < |levels| :: levels[i].price
  }

  /** The four venues the application knows. */
  datatype VenueId = Binance | Okx | Bybit | Deribit

  datatype ZoneKind = Support | Resistance

  /** A detected band of support or resistance. */
  datatype PressureZone = PressureZone(
    id: string,
    priceLevel: real,
    intensity: real,
    volume: real,
    kind: ZoneKind,
    venue: Option<string>,
    startTime: int,
    endTime: Option<int>,
    confidence: real)
}
