/** The price and quantity ranges that the depth chart and the 3D bars both
    derive from the levels they keep. `None` stands for the infinities that
    `Math.min()` and `Math.max()` of no arguments give. */
module ChartRanges {
  import opened Wrappers
  import opened OrderbookTypes
  import opened Numbers

  /** Each side keeps at most this many levels. */
  const MaxItems: nat := 100

  function Prices(levels: seq<Level>): (r: seq<real>)
    ensures |r| == |levels|
    ensures forall i :: 0 <= i < |levels| ==> r[i] == levels[i].price
  {
    seq(|levels|, i requires 0 <= i < |levels| => levels[i].price)
  }

  function Quantities(levels: seq<Level>): (r: seq<real>)
    ensures |r| == |levels|
    ensures forall i :: 0 <= i < |levels| ==> r[i] == levels[i].quantity
  {
    seq(|levels|, i requires 0 <= i < |levels| => levels[i].quantity)
  }

  /** `x || 1`: zero becomes one, anything else is kept. */
  function OrOne(x: real): (r: real)
    ensures r != 0.0
    ensures x != 0.0 ==> r == x
  {
    if x == 0.0 then 1.0 else x
  }

  datatype Ranges = Ranges(
    minPrice: Option<real>,
    maxPrice: Option<real>,
    priceRange: Option<real>,
    maxQuantity: Option<real>)

  /** The ranges over the kept bids and asks together. */
  function RangesOf(bids: seq<Level>, asks: seq<Level>): (r: Ranges)
    ensures r.minPrice.Some? <==> |bids| + |asks| > 0
    ensures r.maxPrice.Some? == r.minPrice.Some? && r.priceRange.Some? == r.minPrice.Some?
    ensures r.maxQuantity.Some? == r.minPrice.Some?
    ensures r.minPrice.Some? ==> r.minPrice.value <= r.maxPrice.value
    ensures r.minPrice.Some? ==>
              forall l :: l in bids + asks ==> r.minPrice.value <= l.price <= r.maxPrice.value
    ensures r.minPrice.Some? ==> r.priceRange.value > 0.0
    ensures r.minPrice.Some? && r.minPrice.value < r.maxPrice.value ==>
              r.priceRange.value == r.maxPrice.value - r.minPrice.value
    ensures r.minPrice.Some? && r.minPrice.value == r.maxPrice.value ==> r.priceRange.value == 1.0
    ensures r.minPrice.Some? ==>
              r.maxQuantity.value != 0.0 &&
              forall l :: l in bids + asks ==> l.quantity <= r.maxQuantity.value
    ensures r.minPrice.Some? && NonNegativeQuantities(bids + asks) ==> r.maxQuantity.value > 0.0
  {
    var all := bids + asks;
    if |all| == 0 then Ranges(None, None, None, None)
    else
      var prices, quantities := Prices(all), Quantities(all);
      var lo, hi := MinOf(prices), MaxOf(prices);
      assert prices[0] == all[0].price;
      assert forall l :: l in all ==> l.price in prices && l.quantity in quantities;
      var q := MaxOf(quantities);
      assert q >= quantities[0] == all[0].quantity;
      Ranges(Some(lo), Some(hi), Some(OrOne(hi - lo)), Some(OrOne(q)))
  }

  /** The extreme prices are prices of kept levels, and the quantity bound
      is a kept level's quantity (one when that quantity is zero). */
  lemma RangesAttained(bids: seq<Level>, asks: seq<Level>)
    requires |bids| + |asks| > 0
    ensures exists l :: l in bids + asks && l.price == RangesOf(bids, asks).minPrice.value
    ensures exists l :: l in bids + asks && l.price == RangesOf(bids, asks).maxPrice.value
    ensures exists l :: l in bids + asks && RangesOf(bids, asks).maxQuantity.value == OrOne(l.quantity)
  {
    var all := bids + asks;
    var prices, quantities := Prices(all), Quantities(all);
    MinOfAttained(prices);
    MaxOfAttained(prices);
    MaxOfAttained(quantities);
    var i :| 0 <= i < |prices| && MinOf(prices) == prices[i];
    var j :| 0 <= j < |prices| && MaxOf(prices) == prices[j];
    var k :| 0 <= k < |quantities| && MaxOf(quantities) == quantities[k];
    assert all[i] in all && all[j] in all && all[k] in all;
  }
}
