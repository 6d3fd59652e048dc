/** The 3D bar view: the first 100 levels of each side, one bar per level,
    placed along x by price and sized by quantity. */
module OrderbookBars {
  import opened Wrappers
  import opened Seqs
  import opened OrderbookTypes
  import opened Numbers
  import opened ChartRanges

  datatype BarData = BarData(bids: seq<Level>, asks: seq<Level>, ranges: Ranges)

  /** The kept levels and their ranges, or null before the first book. */
  function ProcessedData(snapshot: Option<AggregatedOrderbook>): (r: Option<BarData>)
    ensures r.None? <==> snapshot.None?
    ensures r.Some? ==> r.value.bids == KeepFirst(snapshot.value.bids, MaxItems)
    ensures r.Some? ==> r.value.asks == KeepFirst(snapshot.value.asks, MaxItems)
    ensures r.Some? ==> r.value.ranges == RangesOf(r.value.bids, r.value.asks)
  {
    match snapshot
    case None => None
    case Some(book) =>
      var bids, asks := KeepFirst(book.bids, MaxItems), KeepFirst(book.asks, MaxItems);
      Some(BarData(bids, asks, RangesOf(bids, asks)))
  }

  datatype Side = BidSide | AskSide

  /** A bar's position and its vertical scale. */
  datatype Bar = Bar(x: real, y: real, z: real, height: real)

  /** The bar of the level at `index` on `side`. */
  function BarOf(level: Level, index: nat, side: Side, minPrice: real, priceRange: real, maxQuantity: real): (b: Bar)
    requires priceRange != 0.0 && maxQuantity != 0.0
    ensures b.height >= 0.1
    ensures b.z == (if side == BidSide then -0.05 else 0.05) * index as real
  {
    var share := level.quantity / maxQuantity;
    Bar((level.price - minPrice) / priceRange * 10.0,
        share * 5.0,
        (if side == BidSide then -0.05 else 0.05) * index as real,
        Max(share * 2.0, 0.1))
  }

  /** The bars of one side's kept levels; no bars at all when neither
      side kept a level. */
  function SideBars(levels: seq<Level>, side: Side, d: BarData): (r: seq<Bar>)
    requires d.ranges == RangesOf(d.bids, d.asks)
    requires levels == d.bids || levels == d.asks
    ensures |r| == |levels|
  {
    var rs := d.ranges;
    if rs.minPrice.None? then []
    else seq(|levels|, i requires 0 <= i < |levels| =>
               BarOf(levels[i], i, side, rs.minPrice.value, rs.priceRange.value, rs.maxQuantity.value))
  }

  /** The bars of both sides, or nothing before the first book. */
  function Layout(snapshot: Option<AggregatedOrderbook>): (r: Option<(seq<Bar>, seq<Bar>)>)
    ensures r.None? <==> snapshot.None?
  {
    match ProcessedData(snapshot)
    case None => None
    case Some(d) => Some((SideBars(d.bids, BidSide, d), SideBars(d.asks, AskSide, d)))
  }

  /** A price between the minimum and the maximum lands between 0 and 10. */
  lemma PositionInChart(lo: real, hi: real, price: real)
    requires lo <= price <= hi
    ensures 0.0 <= (price - lo) / OrOne(hi - lo) * 10.0 <= 10.0
  {
    if lo < hi {
      DivideBound(hi - lo, 0.0, price - lo, 1.0);
    }
  }

  /** Every bar of one side lies in [0, 10] along x, is at least 0.1 high
      and sits at its side's offset along z. */
  lemma SideBounds(levels: seq<Level>, side: Side, d: BarData)
    requires d.ranges == RangesOf(d.bids, d.asks)
    requires levels == d.bids || levels == d.asks
    ensures var bars := SideBars(levels, side, d);
            forall i :: 0 <= i < |bars| ==>
              0.0 <= bars[i].x <= 10.0 && bars[i].height >= 0.1 &&
              bars[i].z == (if side == BidSide then -0.05 else 0.05) * i as real
  {
    var bars := SideBars(levels, side, d);
    if |d.bids| + |d.asks| > 0 {
      var lo, hi := d.ranges.minPrice.value, d.ranges.maxPrice.value;
      assert d.ranges.priceRange.value == OrOne(hi - lo);
      forall i | 0 <= i < |bars|
        ensures 0.0 <= bars[i].x <= 10.0
      {
        assert levels[i] in d.bids + d.asks;
        PositionInChart(lo, hi, levels[i].price);
      }
    }
  }

  /** One bar per kept level; every bar's x lies in [0, 10], its height
      scale is at least 0.1, and the bar of the i-th level sits at
      z = -0.05 i for a bid and z = 0.05 i for an ask. */
  lemma LayoutBounds(book: AggregatedOrderbook)
    ensures var d := ProcessedData(Some(book)).value;
            var (bidBars, askBars) := Layout(Some(book)).value;
            |bidBars| == |d.bids| && |askBars| == |d.asks| &&
            (forall i :: 0 <= i < |bidBars| ==>
               0.0 <= bidBars[i].x <= 10.0 && bidBars[i].height >= 0.1 && bidBars[i].z == -0.05 * i as real) &&
            (forall i :: 0 <= i < |askBars| ==>
               0.0 <= askBars[i].x <= 10.0 && askBars[i].height >= 0.1 && askBars[i].z == 0.05 * i as real)
  {
    var d := ProcessedData(Some(book)).value;
    SideBounds(d.bids, BidSide, d);
    SideBounds(d.asks, AskSide, d);
  }
}
