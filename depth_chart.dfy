/** The depth chart: the first 100 levels of each side, sorted by price and
    accumulated into running quantities, and the triangle fans that fill
    the area under each side's curve. */
module DepthChart {
  import opened Wrappers
  import opened Seqs
  import opened OrderbookTypes
  import opened Numbers
  import opened ChartRanges
  import opened BookMetrics

  /** A level with the running quantity up to and including it. */
  datatype CumulativeLevel = CumulativeLevel(level: Level, cumulativeQty: real)

  // Sorting by price

  /** `a` may come before `b`: by falling price for bids (`descending`),
      by rising price for asks. */
  predicate InOrder(a: Level, b: Level, descending: bool) {
    if descending then a.price >= b.price else a.price <= b.price
  }

  predicate Sorted(s: seq<Level>, descending: bool) {
    forall i, j :: 0 <= i < j < |s| ==> InOrder(s[i], s[j], descending)
  }

  /** `x` placed after every level it may follow; levels of equal price
      keep their order, as the stable `Array.prototype.sort` does. */
  function Insert(s: seq<Level>, x: Level, descending: bool): (r: seq<Level>)
    requires Sorted(s, descending)
    ensures multiset(r) == multiset(s) + multiset{x}
    ensures Sorted(r, descending)
  {
    if s == [] || InOrder(s[|s| - 1], x, descending) then
      AppendSorted(s, x, descending);
      s + [x]
    else
      var init, last := s[..|s| - 1], s[|s| - 1];
      assert s == init + [last];
      var ins := Insert(init, x, descending);
      InsertBeforeLast(init, last, ins, x, descending);
      ins + [last]
  }

  /** A level that may follow the last one of a sorted list may be appended. */
  lemma AppendSorted(s: seq<Level>, x: Level, descending: bool)
    requires Sorted(s, descending)
    requires s == [] || InOrder(s[|s| - 1], x, descending)
    ensures Sorted(s + [x], descending)
  {
    var r := s + [x];
    forall i, j | 0 <= i < j < |r|
      ensures InOrder(r[i], r[j], descending)
    {
      if j == |s| && i < |s| - 1 {
        assert InOrder(s[i], s[|s| - 1], descending);
      }
    }
  }

  /** The last level of a sorted list may follow every level of the list
      before it, and a level that may not precede it. */
  lemma InsertBeforeLast(init: seq<Level>, last: Level, ins: seq<Level>, x: Level, descending: bool)
    requires Sorted(init + [last], descending)
    requires Sorted(ins, descending)
    requires multiset(ins) == multiset(init) + multiset{x}
    requires !InOrder(last, x, descending)
    ensures Sorted(ins + [last], descending)
  {
    var r := ins + [last];
    forall i, j | 0 <= i < j < |r|
      ensures InOrder(r[i], r[j], descending)
    {
      if j == |ins| {
        assert r[i] in multiset(ins);
        if r[i] != x {
          assert r[i] in multiset(init);
          var k :| 0 <= k < |init| && init[k] == r[i];
          assert (init + [last])[k] == r[i] && (init + [last])[|init|] == last;
        }
      }
    }
  }

  /** `[...orders].sort(...)` by price. */
  function SortByPrice(s: seq<Level>, descending: bool): (r: seq<Level>)
    ensures multiset(r) == multiset(s)
    ensures |r| == |s|
    ensures Sorted(r, descending)
  {
    if s == [] then []
    else
      assert s == s[..|s| - 1] + [s[|s| - 1]];
      var r := Insert(SortByPrice(s[..|s| - 1], descending), s[|s| - 1], descending);
      assert |multiset(r)| == |r|;
      r
  }

  /** Inserting a level adds its quantity to the total. */
  lemma {:induction false} InsertTotal(s: seq<Level>, x: Level, descending: bool)
    requires Sorted(s, descending)
    ensures TotalQuantity(Insert(s, x, descending)) == TotalQuantity(s) + x.quantity
  {
    if s == [] || InOrder(s[|s| - 1], x, descending) {
      assert (s + [x])[..|s|] == s;
    } else {
      var init, last := s[..|s| - 1], s[|s| - 1];
      var ins := Insert(init, x, descending);
      InsertTotal(init, x, descending);
      assert (ins + [last])[..|ins|] == ins;
    }
  }

  /** Sorting keeps a side's total quantity. */
  lemma {:induction false} SortKeepsTotal(s: seq<Level>, descending: bool)
    ensures TotalQuantity(SortByPrice(s, descending)) == TotalQuantity(s)
  {
    if s != [] {
      SortKeepsTotal(s[..|s| - 1], descending);
      InsertTotal(SortByPrice(s[..|s| - 1], descending), s[|s| - 1], descending);
    }
  }

  /** Sorting keeps the quantities non-negative. */
  lemma SortKeepsNonNegative(s: seq<Level>, descending: bool)
    requires NonNegativeQuantities(s)
    ensures NonNegativeQuantities(SortByPrice(s, descending))
  {
    var r := SortByPrice(s, descending);
    forall k | 0 <= k < |r|
      ensures r[k].quantity >= 0.0
    {
      assert r[k] in multiset(s);
    }
  }

  // Running quantities

  /** Each level paired with the total quantity of the levels up to and
      including it. */
  function CumulativeOf(s: seq<Level>): (r: seq<CumulativeLevel>)
    ensures |r| == |s|
  {
    seq(|s|, i requires 0 <= i < |s| => CumulativeLevel(s[i], TotalQuantity(s[..i + 1])))
  }

  /** `calculateCumulative`: the orders sorted by price, each with the
      running total of the quantities so far. */
  method Cumulate(orders: seq<Level>, descending: bool) returns (r: seq<CumulativeLevel>)
    ensures r == CumulativeOf(SortByPrice(orders, descending))
  {
    var sorted := SortByPrice(orders, descending);
    var cumulative := 0.0;
    r := [];
    for i := 0 to |sorted|
      invariant |r| == i
      invariant cumulative == TotalQuantity(sorted[..i])
      invariant forall k :: 0 <= k < i ==> r[k] == CumulativeLevel(sorted[k], TotalQuantity(sorted[..k + 1]))
    {
      assert sorted[..i + 1][..i] == sorted[..i];
      cumulative := cumulative + sorted[i].quantity;
      r := r + [CumulativeLevel(sorted[i], cumulative)];
    }
  }

  /** With non-negative quantities, totals of longer prefixes are larger. */
  lemma {:induction false} PrefixTotalMonotone(s: seq<Level>, i: nat, j: nat)
    requires NonNegativeQuantities(s)
    requires i <= j <= |s|
    ensures TotalQuantity(s[..i]) <= TotalQuantity(s[..j])
    decreases j - i
  {
    if i < j {
      PrefixTotalMonotone(s, i, j - 1);
      assert s[..j][..j - 1] == s[..j - 1];
    }
  }

  /** The running total at `i` is at least 0 and at most the one at `j`. */
  lemma RunningTotalsOrdered(s: seq<Level>, i: nat, j: nat)
    requires NonNegativeQuantities(s)
    requires i <= j < |s|
    ensures 0.0 <= TotalQuantity(s[..i + 1]) <= TotalQuantity(s[..j + 1])
  {
    PrefixTotalMonotone(s, 0, i + 1);
    PrefixTotalMonotone(s, i + 1, j + 1);
    assert s[..0] == [];
  }

  /** With non-negative quantities the running totals never fall, and the
      last one is the total of the side. */
  lemma CumulativeShape(s: seq<Level>)
    requires NonNegativeQuantities(s)
    ensures var c := CumulativeOf(s);
            (forall i, j :: 0 <= i <= j < |c| ==> 0.0 <= c[i].cumulativeQty <= c[j].cumulativeQty) &&
            (c != [] ==> c[|c| - 1].cumulativeQty == TotalQuantity(s))
  {
    var c := CumulativeOf(s);
    forall i, j | 0 <= i <= j < |c|
      ensures 0.0 <= c[i].cumulativeQty <= c[j].cumulativeQty
    {
      assert c[i].cumulativeQty == TotalQuantity(s[..i + 1]);
      assert c[j].cumulativeQty == TotalQuantity(s[..j + 1]);
      RunningTotalsOrdered(s, i, j);
    }
    if c != [] {
      assert c[|c| - 1].cumulativeQty == TotalQuantity(s[..|s|]);
      assert s[..|s|] == s;
    }
  }

  // The largest running total

  function CumulativeValues(c: seq<CumulativeLevel>): (r: seq<real>)
    ensures |r| == |c|
    ensures forall i :: 0 <= i < |c| ==> r[i] == c[i].cumulativeQty
  {
    seq(|c|, i requires 0 <= i < |c| => c[i].cumulativeQty)
  }

  /** `Math.max(...values)`, with `None` for the `-Infinity` of no values. */
  function MaxCumulative(c: seq<CumulativeLevel>): (r: Option<real>)
    ensures r.Some? <==> c != []
    ensures r.Some? ==> forall i :: 0 <= i < |c| ==> c[i].cumulativeQty <= r.value
  {
    if c == [] then None else Some(MaxOf(CumulativeValues(c)))
  }

  /** `maxQty`: the larger of the two sides' largest running totals. */
  function MaxQty(bids: seq<CumulativeLevel>, asks: seq<CumulativeLevel>): (r: Option<real>)
    ensures r.Some? <==> bids != [] || asks != []
    ensures r.Some? ==> forall i :: 0 <= i < |bids| ==> bids[i].cumulativeQty <= r.value
    ensures r.Some? ==> forall i :: 0 <= i < |asks| ==> asks[i].cumulativeQty <= r.value
  {
    match (MaxCumulative(bids), MaxCumulative(asks))
    case (None, a) => a
    case (b, None) => b
    case (Some(b), Some(a)) => Some(Max(b, a))
  }

  /** The maximum of a list that never falls is its last element. */
  lemma {:induction false} MaxOfNonDecreasing(s: seq<real>)
    requires |s| > 0
    requires forall i, j :: 0 <= i <= j < |s| ==> s[i] <= s[j]
    ensures MaxOf(s) == s[|s| - 1]
  {
    if |s| > 1 {
      MaxOfNonDecreasing(s[..|s| - 1]);
    }
  }

  /** The largest running total of a side of non-negative quantities is the
      side's total. */
  lemma MaxCumulativeIsTotal(s: seq<Level>, descending: bool)
    requires NonNegativeQuantities(s)
    ensures MaxCumulative(CumulativeOf(SortByPrice(s, descending))) ==
            (if s == [] then None else Some(TotalQuantity(s)))
  {
    var sorted := SortByPrice(s, descending);
    SortKeepsNonNegative(s, descending);
    SortKeepsTotal(s, descending);
    CumulativeShape(sorted);
    var c := CumulativeOf(sorted);
    if s != [] {
      var values := CumulativeValues(c);
      assert forall i, j :: 0 <= i <= j < |values| ==> values[i] <= values[j];
      MaxOfNonDecreasing(values);
      assert MaxCumulative(c) == Some(values[|values| - 1]);
      assert values[|values| - 1] == c[|c| - 1].cumulativeQty == TotalQuantity(sorted);
    }
  }

  // The processed data

  datatype DepthData = DepthData(
    bids: seq<Level>,
    asks: seq<Level>,
    ranges: Ranges,
    cumulativeBids: seq<CumulativeLevel>,
    cumulativeAsks: seq<CumulativeLevel>,
    maxQty: Option<real>)

  /** `processedData`: nothing before the first book; otherwise the first
      100 levels of each side, their ranges, the bids accumulated by
      falling price and the asks by rising price, and the largest running
      total. */
  method ProcessedData(snapshot: Option<AggregatedOrderbook>) returns (r: Option<DepthData>)
    ensures r.None? <==> snapshot.None?
    ensures r.Some? ==>
              var d := r.value;
              d.bids == KeepFirst(snapshot.value.bids, MaxItems) &&
              d.asks == KeepFirst(snapshot.value.asks, MaxItems) &&
              d.ranges == RangesOf(d.bids, d.asks) &&
              d.cumulativeBids == CumulativeOf(SortByPrice(d.bids, true)) &&
              d.cumulativeAsks == CumulativeOf(SortByPrice(d.asks, false)) &&
              d.maxQty == MaxQty(d.cumulativeBids, d.cumulativeAsks)
  {
    if snapshot.None? {
      return None;
    }
    var book := snapshot.value;
    var bids := KeepFirst(book.bids, MaxItems);
    var asks := KeepFirst(book.asks, MaxItems);
    var cumulativeBids := Cumulate(bids, true);
    var cumulativeAsks := Cumulate(asks, false);
    r := Some(DepthData(bids, asks, RangesOf(bids, asks), cumulativeBids, cumulativeAsks,
                        MaxQty(cumulativeBids, cumulativeAsks)));
  }

  /** With non-negative quantities, the largest running total is the larger
      of the two kept sides' totals (a side with no levels does not
      count). */
  lemma MaxQtyOfTotals(bids: seq<Level>, asks: seq<Level>)
    requires NonNegativeQuantities(bids) && NonNegativeQuantities(asks)
    ensures var m := MaxQty(CumulativeOf(SortByPrice(bids, true)), CumulativeOf(SortByPrice(asks, false)));
            (bids == [] && asks == [] ==> m == None) &&
            (bids != [] && asks == [] ==> m == Some(TotalQuantity(bids))) &&
            (bids == [] && asks != [] ==> m == Some(TotalQuantity(asks))) &&
            (bids != [] && asks != [] ==> m == Some(Max(TotalQuantity(bids), TotalQuantity(asks))))
  {
    MaxCumulativeIsTotal(bids, true);
    MaxCumulativeIsTotal(asks, false);
  }

  // The area fill

  /** The index buffer of a fan over `pointCount` points: for each i from 1
      to pointCount - 2 the triangle (0, i, i + 1). */
  method FanIndices(pointCount: nat) returns (indices: seq<nat>)
    ensures |indices| == (if pointCount >= 2 then 3 * (pointCount - 2) else 0)
    ensures forall k :: 0 <= k < |indices| ==> indices[k] == (if k % 3 == 0 then 0 else k / 3 + k % 3)
    ensures forall k :: 0 <= k < |indices| ==> indices[k] < pointCount
  {
    indices := [];
    var i := 1;
    while i < pointCount - 1
      invariant 1 <= i
      invariant pointCount >= 2 ==> i <= pointCount - 1
      invariant pointCount < 2 ==> i == 1
      invariant |indices| == 3 * (i - 1)
      invariant forall k :: 0 <= k < |indices| ==> indices[k] == (if k % 3 == 0 then 0 else k / 3 + k % 3)
      invariant forall k :: 0 <= k < |indices| ==> indices[k] <= i
      decreases pointCount - i
    {
      indices := indices + [0, i, i + 1];
      i := i + 1;
    }
  }
}
