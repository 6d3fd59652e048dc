/** Aggregation of a snapshot and the metrics derived from an aggregated
    book (useWebSocket's convertToAggregatedOrderbook and
    calculateOrderbookMetrics). */
module BookMetrics {
  import opened Wrappers
  import opened OrderbookTypes

  /** Sum of the quantities, in list order. */
  function TotalQuantity(levels: seq<Level>): real {
    if levels == [] then 0.0
    else TotalQuantity(levels[..|levels| - 1]) + levels[|levels| - 1].quantity
  }

  lemma {:induction false} TotalQuantityNonNegative(levels: seq<Level>)
    requires NonNegativeQuantities(levels)
    ensures TotalQuantity(levels) >= 0.0
  {
    if levels != [] {
      TotalQuantityNonNegative(levels[..|levels| - 1]);
    }
  }

  lemma {:induction false} TotalQuantityAppend(a: seq<Level>, b: seq<Level>)
    ensures TotalQuantity(a + b) == TotalQuantity(a) + TotalQuantity(b)
    decreases |b|
  {
    if b == [] {
      assert a + b == a;
    } else {
      assert (a + b)[..|a + b| - 1] == a + b[..|b| - 1];
      TotalQuantityAppend(a, b[..|b| - 1]);
    }
  }

  /** The price of the first level, or 0 for an empty side. */
  function BestPrice(levels: seq<Level>): real {
    if |levels| > 0 then levels[0].price else 0.0
  }

  /** convertToAggregatedOrderbook: the levels are passed through in the
      order given; totals, spread and mid price are derived from them. */
  function ConvertToAggregated(s: Snapshot): (r: AggregatedOrderbook)
    ensures r.symbol == s.symbol && r.timestamp == s.timestamp
    ensures r.bids == s.bids && r.asks == s.asks
    ensures r.totalBidVolume == TotalQuantity(s.bids)
    ensures r.totalAskVolume == TotalQuantity(s.asks)
    // the mid price sits half a spread away from each best quote
    ensures r.midPrice - r.spread / 2.0 == BestPrice(s.bids)
    ensures r.midPrice + r.spread / 2.0 == BestPrice(s.asks)
    ensures BestPrice(s.bids) <= BestPrice(s.asks) ==>
              r.spread >= 0.0 && BestPrice(s.bids) <= r.midPrice <= BestPrice(s.asks)
  {
    var bestBid := BestPrice(s.bids);
    var bestAsk := BestPrice(s.asks);
    AggregatedOrderbook(
      s.symbol, s.timestamp, s.bids, s.asks,
      TotalQuantity(s.bids), TotalQuantity(s.asks),
      bestAsk - bestBid, (bestBid + bestAsk) / 2.0)
  }

  lemma AggregatedTotalsNonNegative(s: Snapshot)
    requires NonNegativeQuantities(s.bids) && NonNegativeQuantities(s.asks)
    ensures ConvertToAggregated(s).totalBidVolume >= 0.0
    ensures ConvertToAggregated(s).totalAskVolume >= 0.0
  {
    TotalQuantityNonNegative(s.bids);
    TotalQuantityNonNegative(s.asks);
  }

  /** Quantity of the bid levels priced at or above `threshold`. */
  function BidDepth(levels: seq<Level>, threshold: real): real {
    if levels == [] then 0.0
    else
      var last := levels[|levels| - 1];
      BidDepth(levels[..|levels| - 1], threshold) + (if last.price >= threshold then last.quantity else 0.0)
  }

  /** Quantity of the ask levels priced at or below `threshold`. */
  function AskDepth(levels: seq<Level>, threshold: real): real {
    if levels == [] then 0.0
    else
      var last := levels[|levels| - 1];
      AskDepth(levels[..|levels| - 1], threshold) + (if last.price <= threshold then last.quantity else 0.0)
  }

  /** With non-negative quantities, the depth near the best price is
      between 0 and the side's total volume. */
  lemma {:induction false} DepthBoundedByTotal(levels: seq<Level>, threshold: real)
    requires NonNegativeQuantities(levels)
    ensures 0.0 <= BidDepth(levels, threshold) <= TotalQuantity(levels)
    ensures 0.0 <= AskDepth(levels, threshold) <= TotalQuantity(levels)
  {
    if levels != [] {
      DepthBoundedByTotal(levels[..|levels| - 1], threshold);
    }
  }

  /** `spread / midPrice * 100`; `None` when the mid price is 0 and the
      source produces NaN or an infinity. */
  function SpreadPercentage(spread: real, midPrice: real): (r: Option<real>)
    ensures r.Some? <==> midPrice != 0.0
    ensures r.Some? ==> r.value * midPrice == spread * 100.0
  {
    if midPrice == 0.0 then None else Some(spread / midPrice * 100.0)
  }

  /** `totalBid / (totalAsk || 1)`: a zero ask volume divides by 1. */
  function Imbalance(totalBid: real, totalAsk: real): (r: real)
    ensures totalAsk == 0.0 ==> r == totalBid
    ensures totalAsk != 0.0 ==> r * totalAsk == totalBid
  {
    totalBid / (if totalAsk == 0.0 then 1.0 else totalAsk)
  }

  /** The volume-weighted mid price: each best quote weighted by the
      opposite side's volume. A 0/0 (NaN) falls back to the plain mid price;
      a non-zero numerator over a zero total is an infinity, `None`. */
  function WeightedMid(bestBid: real, bestAsk: real, totalBid: real, totalAsk: real, midPrice: real): (r: Option<real>)
    ensures totalBid + totalAsk != 0.0 ==>
              r.Some? && r.value * (totalBid + totalAsk) == bestBid * totalAsk + bestAsk * totalBid
    ensures totalBid >= 0.0 && totalAsk >= 0.0 ==> r.Some?
    ensures totalBid >= 0.0 && totalAsk >= 0.0 && totalBid + totalAsk == 0.0 ==> r == Some(midPrice)
  {
    var total := totalBid + totalAsk;
    var weighted := bestBid * totalAsk + bestAsk * totalBid;
    if total != 0.0 then Some(weighted / total)
    else
      assert totalBid >= 0.0 && totalAsk >= 0.0 ==> totalBid == 0.0 && totalAsk == 0.0 && weighted == 0.0;
      if weighted == 0.0 then Some(midPrice) else None
  }

  /** With non-negative volumes and an uncrossed book the weighted mid lies
      between the best bid and the best ask. */
  lemma WeightedMidBetweenQuotes(bestBid: real, bestAsk: real, totalBid: real, totalAsk: real, midPrice: real)
    requires totalBid >= 0.0 && totalAsk >= 0.0 && totalBid + totalAsk > 0.0
    requires bestBid <= bestAsk
    ensures WeightedMid(bestBid, bestAsk, totalBid, totalAsk, midPrice).Some?
    ensures bestBid <= WeightedMid(bestBid, bestAsk, totalBid, totalAsk, midPrice).value <= bestAsk
  {
    var total := totalBid + totalAsk;
    var w := bestBid * totalAsk + bestAsk * totalBid;
    assert bestBid * totalBid <= bestAsk * totalBid by {
      assert (bestAsk - bestBid) * totalBid >= 0.0;
    }
    assert bestBid * totalAsk <= bestAsk * totalAsk by {
      assert (bestAsk - bestBid) * totalAsk >= 0.0;
    }
    assert bestBid * total <= w <= bestAsk * total;
    var r := w / total;
    assert r - bestBid == (w - bestBid * total) / total;
    assert bestAsk - r == (bestAsk * total - w) / total;
  }

  const BidDepthFactor: real := 0.99
  const AskDepthFactor: real := 1.01

  /** calculateOrderbookMetrics as a function of the aggregated book. */
  function MetricsOf(book: AggregatedOrderbook): Metrics {
    var bestBid := BestPrice(book.bids);
    var bestAsk := BestPrice(book.asks);
    var spread := bestAsk - bestBid;
    Metrics(
      spread,
      SpreadPercentage(spread, book.midPrice),
      BidDepth(book.bids, bestBid * BidDepthFactor),
      AskDepth(book.asks, bestAsk * AskDepthFactor),
      Imbalance(book.totalBidVolume, book.totalAskVolume),
      book.totalBidVolume + book.totalAskVolume,
      WeightedMid(bestBid, bestAsk, book.totalBidVolume, book.totalAskVolume, book.midPrice),
      book.timestamp)
  }

  /** What the metrics say about a book built from a snapshot whose
      quantities are non-negative: depths within the side totals, a finite
      weighted mid price, and the imbalance clamp. */
  lemma MetricsOfSnapshot(s: Snapshot)
    requires NonNegativeQuantities(s.bids) && NonNegativeQuantities(s.asks)
    ensures var book := ConvertToAggregated(s);
            var m := MetricsOf(book);
            && 0.0 <= m.bidDepth <= book.totalBidVolume
            && 0.0 <= m.askDepth <= book.totalAskVolume
            && m.totalVolume >= 0.0
            && m.weightedMidPrice.Some?
            && (m.totalVolume == 0.0 ==> m.weightedMidPrice == Some(book.midPrice))
            && (book.totalAskVolume == 0.0 ==> m.imbalance == book.totalBidVolume)
            && m.spread == book.spread
  {
    var book := ConvertToAggregated(s);
    DepthBoundedByTotal(s.bids, BestPrice(s.bids) * BidDepthFactor);
    DepthBoundedByTotal(s.asks, BestPrice(s.asks) * AskDepthFactor);
    AggregatedTotalsNonNegative(s);
  }

  /** calculateOrderbookMetrics: the two depth sums are accumulated level by
      level, as the source's forEach loops do. */
  method CalculateMetrics(book: AggregatedOrderbook) returns (m: Metrics)
    ensures m == MetricsOf(book)
  {
    var bestBid := if |book.bids| > 0 then book.bids[0].price else 0.0;
    var bestAsk := if |book.asks| > 0 then book.asks[0].price else 0.0;
    var spread := bestAsk - bestBid;
    var spreadPercentage := SpreadPercentage(spread, book.midPrice);
    var bidThreshold := bestBid * BidDepthFactor;
    var askThreshold := bestAsk * AskDepthFactor;

    var bidDepth := 0.0;
    var askDepth := 0.0;
    var i := 0;
    while i < |book.bids|
      invariant 0 <= i <= |book.bids|
      invariant bidDepth == BidDepth(book.bids[..i], bidThreshold)
    {
      assert book.bids[..i + 1][..i] == book.bids[..i];
      if book.bids[i].price >= bidThreshold {
        bidDepth := bidDepth + book.bids[i].quantity;
      }
      i := i + 1;
    }
    assert book.bids[..|book.bids|] == book.bids;
    var j := 0;
    while j < |book.asks|
      invariant 0 <= j <= |book.asks|
      invariant askDepth == AskDepth(book.asks[..j], askThreshold)
    {
      assert book.asks[..j + 1][..j] == book.asks[..j];
      if book.asks[j].price <= askThreshold {
        askDepth := askDepth + book.asks[j].quantity;
      }
      j := j + 1;
    }
    assert book.asks[..|book.asks|] == book.asks;

    var imbalance := Imbalance(book.totalBidVolume, book.totalAskVolume);
    var totalVolume := book.totalBidVolume + book.totalAskVolume;
    var weightedMid := WeightedMid(bestBid, bestAsk, book.totalBidVolume, book.totalAskVolume, book.midPrice);
    m := Metrics(spread, spreadPercentage, bidDepth, askDepth, imbalance, totalVolume, weightedMid, book.timestamp);
  }
}
