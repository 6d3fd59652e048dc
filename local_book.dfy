/** The local book that the data hook keeps per client: two price-keyed
    maps, refilled by every snapshot and edited by every update, and the
    sorted book rebuilt from them after each update. */
module LocalBook {
  import opened Wrappers
  import opened OrderbookTypes
  import BookMetrics
  import opened Seqs

  // ---------------------------------------------------------------------
  // Price-keyed sides

  /** Every entry of a side is stored under its own price. */
  predicate KeyedByPrice(side: map<real, Level>) {
    forall p :: p in side ==> side[p].price == p
  }

  function Lookup(side: map<real, Level>, p: real): Option<Level> {
    if p in side then Some(side[p]) else None
  }

  lemma PriceSetSnoc(levels: seq<Level>, l: Level)
    ensures PriceSet(levels + [l]) == PriceSet(levels) + {l.price}
  {
    var s := levels + [l];
    forall p | p in PriceSet(s) ensures p in PriceSet(levels) + {l.price} {
      var i :| 0 <= i < |s| && s[i].price == p;
      if i < |levels| { assert levels[i].price == p; }
    }
    forall p | p in PriceSet(levels) ensures p in PriceSet(s) {
      var i :| 0 <= i < |levels| && levels[i].price == p;
      assert s[i].price == p;
    }
    assert s[|levels|].price == l.price;
  }

  /** The last level of `levels` whose price is `p`, if any. */
  function LastAt(levels: seq<Level>, p: real): (r: Option<Level>)
    ensures r.Some? ==> r.value in levels && r.value.price == p
    ensures r.None? <==> p !in PriceSet(levels)
  {
    if levels == [] then None
    else
      var last := levels[|levels| - 1];
      var init := levels[..|levels| - 1];
      assert levels == init + [last];
      PriceSetSnoc(init, last);
      if last.price == p then Some(last) else LastAt(init, p)
  }

  /** Setting each level under its price, in list order, into `side`
      (the snapshot callback's `forEach(level => map.set(level.price, level))`). */
  function Fill(side: map<real, Level>, levels: seq<Level>): (r: map<real, Level>)
    ensures r.Keys == side.Keys + PriceSet(levels)
    ensures KeyedByPrice(side) ==> KeyedByPrice(r)
  {
    if levels == [] then side
    else
      var last := levels[|levels| - 1];
      var init := levels[..|levels| - 1];
      assert levels == init + [last];
      PriceSetSnoc(init, last);
      Fill(side, init)[last.price := last]
  }

  /** The update callback's edit of one side: a level of quantity 0 deletes
      its price, any other level is set under its price. */
  function ApplyChanges(side: map<real, Level>, levels: seq<Level>): (r: map<real, Level>)
    ensures r.Keys <= side.Keys + PriceSet(levels)
    ensures KeyedByPrice(side) ==> KeyedByPrice(r)
  {
    if levels == [] then side
    else
      var last := levels[|levels| - 1];
      var init := levels[..|levels| - 1];
      assert levels == init + [last];
      PriceSetSnoc(init, last);
      var prev := ApplyChanges(side, init);
      if last.quantity == 0.0 then prev - {last.price} else prev[last.price := last]
  }

  /** After a snapshot, a price holds the LAST level the snapshot lists at
      that price; a price the snapshot does not list is absent. */
  lemma {:induction false} FillAt(side: map<real, Level>, levels: seq<Level>, p: real)
    ensures Lookup(Fill(side, levels), p) ==
              if LastAt(levels, p).Some? then LastAt(levels, p) else Lookup(side, p)
  {
    if levels != [] {
      FillAt(side, levels[..|levels| - 1], p);
    }
  }

  /** After an update, a price whose last change has quantity 0 is absent,
      a price with any other last change holds that change, and a price the
      update does not mention keeps its level. */
  lemma {:induction false} ApplyAt(side: map<real, Level>, levels: seq<Level>, p: real)
    ensures Lookup(ApplyChanges(side, levels), p) ==
              match LastAt(levels, p)
              case None => Lookup(side, p)
              case Some(l) => if l.quantity == 0.0 then None else Some(l)
  {
    if levels != [] {
      ApplyAt(side, levels[..|levels| - 1], p);
    }
  }

  // ---------------------------------------------------------------------
  // Key order of a JavaScript Map

  /** `keys` lists the keys of `side`, each once, in insertion order. */
  ghost predicate Tracks(keys: seq<real>, side: map<real, Level>) {
    Distinct(keys) && forall q :: q in keys <==> q in side
  }

  /** The key order after `map.delete(p)`. */
  function Without(keys: seq<real>, p: real): (r: seq<real>)
    ensures forall q :: q in r <==> q in keys && q != p
    ensures Distinct(keys) ==> Distinct(r)
    ensures |r| <= |keys|
  {
    if keys == [] then []
    else
      var last := keys[|keys| - 1];
      var init := keys[..|keys| - 1];
      assert keys == init + [last];
      var w := Without(init, p);
      if last == p then w
      else
        assert Distinct(keys) ==> last !in init by {
          if Distinct(keys) {
            forall j | 0 <= j < |init| ensures init[j] != last {
              assert keys[j] == init[j];
            }
          }
        }
        w + [last]
  }

  /** The key order after `map.set(p, _)`: a new key goes last, an existing
      key keeps its place. */
  function WithKey(keys: seq<real>, p: real): (r: seq<real>)
    ensures forall q :: q in r <==> q in keys || q == p
    ensures Distinct(keys) ==> Distinct(r)
  {
    if p in keys then keys else keys + [p]
  }

  /** The key order after a snapshot refill (see `Fill`). */
  function FillOrder(keys: seq<real>, levels: seq<Level>): (r: seq<real>)
  {
    if levels == [] then keys
    else
      var init := levels[..|levels| - 1];
      WithKey(FillOrder(keys, init), levels[|levels| - 1].price)
  }

  /** The key order after an update (see `ApplyChanges`). */
  function ApplyOrder(keys: seq<real>, levels: seq<Level>): (r: seq<real>)
  {
    if levels == [] then keys
    else
      var last := levels[|levels| - 1];
      var prev := ApplyOrder(keys, levels[..|levels| - 1]);
      if last.quantity == 0.0 then Without(prev, last.price) else WithKey(prev, last.price)
  }

  /** A snapshot refill keeps the key order in step with the map. */
  lemma {:induction false} FillTracks(keys: seq<real>, side: map<real, Level>, levels: seq<Level>)
    requires Tracks(keys, side)
    ensures Tracks(FillOrder(keys, levels), Fill(side, levels))
  {
    if levels != [] {
      FillTracks(keys, side, levels[..|levels| - 1]);
    }
  }

  /** An update keeps the key order in step with the map. */
  lemma {:induction false} ApplyTracks(keys: seq<real>, side: map<real, Level>, levels: seq<Level>)
    requires Tracks(keys, side)
    ensures Tracks(ApplyOrder(keys, levels), ApplyChanges(side, levels))
  {
    if levels != [] {
      ApplyTracks(keys, side, levels[..|levels| - 1]);
    }
  }

  // ---------------------------------------------------------------------
  // Sorted listing of a side

  /** Bids are listed by descending price, asks by ascending price. */
  predicate Precedes(a: real, b: real, descending: bool) {
    if descending then a > b else a < b
  }

  predicate StrictlyOrdered(s: seq<Level>, descending: bool) {
    forall i, j :: 0 <= i < j < |s| ==> Precedes(s[i].price, s[j].price, descending)
  }

  /** `s` lists the levels of `side`, each once, in strict price order. */
  predicate IsListing(s: seq<Level>, side: map<real, Level>, descending: bool) {
    && StrictlyOrdered(s, descending)
    && PriceSet(s) == side.Keys
    && (forall i :: 0 <= i < |s| ==> s[i].price in side && side[s[i].price] == s[i])
  }

  /** Insertion of a level of a new price into a strictly ordered list. */
  function Insert(s: seq<Level>, l: Level, descending: bool): (r: seq<Level>)
    requires StrictlyOrdered(s, descending)
    requires l.price !in PriceSet(s)
    ensures StrictlyOrdered(r, descending)
    ensures multiset(r) == multiset(s) + multiset{l}
    ensures PriceSet(r) == PriceSet(s) + {l.price}
  {
    if s == [] then [l]
    else if Precedes(l.price, s[0].price, descending) then
      assert PriceSet([l] + s) == PriceSet(s) + {l.price} by {
        assert [l] + s == [l] + s[..0] + s[0..];
        PriceSetCons(l, s);
      }
      [l] + s
    else
      assert s == [s[0]] + s[1..];
      PriceSetCons(s[0], s[1..]);
      assert s[0].price in PriceSet(s);
      var tail := Insert(s[1..], l, descending);
      PriceSetCons(s[0], tail);
      HeadPrecedesInserted(s, l, tail, descending);
      ConsOrdered(s[0], tail, descending);
      [s[0]] + tail
  }

  /** The head of a strictly ordered list precedes every level of its
      tail with a level it precedes inserted. */
  lemma HeadPrecedesInserted(s: seq<Level>, l: Level, tail: seq<Level>, descending: bool)
    requires StrictlyOrdered(s, descending) && s != []
    requires Precedes(s[0].price, l.price, descending)
    requires multiset(tail) == multiset(s[1..]) + multiset{l}
    ensures forall k :: 0 <= k < |tail| ==> Precedes(s[0].price, tail[k].price, descending)
  {
    forall k | 0 <= k < |tail| ensures Precedes(s[0].price, tail[k].price, descending) {
      assert tail[k] in multiset(tail);
      assert tail[k] == l || tail[k] in multiset(s[1..]);
      if tail[k] != l {
        var j :| 0 <= j < |s[1..]| && s[1..][j] == tail[k];
        assert s[j + 1] == tail[k];
      }
    }
  }

  lemma ConsOrdered(h: Level, tail: seq<Level>, descending: bool)
    requires StrictlyOrdered(tail, descending)
    requires forall k :: 0 <= k < |tail| ==> Precedes(h.price, tail[k].price, descending)
    ensures StrictlyOrdered([h] + tail, descending)
  {
    var r := [h] + tail;
    forall i, j | 0 <= i < j < |r| ensures Precedes(r[i].price, r[j].price, descending) {
      assert r[j] == tail[j - 1];
      if i > 0 {
        assert r[i] == tail[i - 1];
      }
    }
  }

  lemma PriceSetCons(l: Level, s: seq<Level>)
    ensures PriceSet([l] + s) == {l.price} + PriceSet(s)
  {
    var t := [l] + s;
    forall p | p in PriceSet(t) ensures p in {l.price} + PriceSet(s) {
      var i :| 0 <= i < |t| && t[i].price == p;
      if i > 0 { assert s[i - 1].price == p; }
    }
    forall p | p in PriceSet(s) ensures p in PriceSet(t) {
      var i :| 0 <= i < |s| && s[i].price == p;
      assert t[i + 1].price == p;
    }
    assert t[0].price == l.price;
  }

  /** Inserting a level of a price the map lacks extends the listing of
      the map to the listing of the map with that level added. */
  lemma InsertListing(r: seq<Level>, m: map<real, Level>, l: Level, descending: bool)
    requires IsListing(r, m, descending)
    requires l.price !in m
    ensures IsListing(Insert(r, l, descending), m[l.price := l], descending)
  {
    var r' := Insert(r, l, descending);
    forall i | 0 <= i < |r'|
      ensures r'[i].price in m[l.price := l] && m[l.price := l][r'[i].price] == r'[i]
    {
      assert r'[i] in multiset(r');
      if r'[i] != l {
        assert r'[i] in multiset(r);
        var j :| 0 <= j < |r| && r[j] == r'[i];
      }
    }
  }

  /** `Array.from(side.values()).sort(...)`: the side's levels, visited in
      the map's key order, in strict price order. */
  method ListLevels(side: map<real, Level>, keys: seq<real>, descending: bool) returns (r: seq<Level>)
    requires KeyedByPrice(side) && Tracks(keys, side)
    ensures IsListing(r, side, descending)
  {
    r := [];
    ghost var done: map<real, Level> := map[];
    for i := 0 to |keys|
      invariant forall q :: q in done <==> q in keys[..i]
      invariant forall q :: q in done ==> q in side && done[q] == side[q]
      invariant IsListing(r, done, descending)
    {
      var p := keys[i];
      assert p !in keys[..i] by {
        forall j | 0 <= j < i ensures keys[..i][j] != p {
          assert keys[j] != keys[i];
        }
      }
      InsertListing(r, done, side[p], descending);
      r := Insert(r, side[p], descending);
      assert keys[..i + 1] == keys[..i] + [p];
      done := done[p := side[p]];
    }
    assert keys[..|keys|] == keys;
    forall q | q in side ensures q in done {
      assert q in keys;
    }
    forall q | q in done ensures q in side && done[q] == side[q] {}
    assert done == side;
  }

  /** The first entry of a listing precedes every other price of the side. */
  lemma ListingHead(s: seq<Level>, side: map<real, Level>, descending: bool, q: real)
    requires IsListing(s, side, descending) && s != []
    requires q in side && q != s[0].price
    ensures Precedes(s[0].price, q, descending)
  {
    assert q in PriceSet(s);
    var k :| 0 <= k < |s| && s[k].price == q;
    assert k != 0;
  }

  /** Dropping the first entry of a listing lists the rest of the side. */
  lemma ListingTail(s: seq<Level>, side: map<real, Level>, descending: bool)
    requires IsListing(s, side, descending) && s != []
    ensures IsListing(s[1..], side - {s[0].price}, descending)
  {
    var p := s[0].price;
    assert s == [s[0]] + s[1..];
    PriceSetCons(s[0], s[1..]);
    forall k | 0 <= k < |s[1..]| ensures s[1..][k].price != p {
      assert Precedes(s[0].price, s[k + 1].price, descending);
    }
    assert PriceSet(s[1..]) == (side - {p}).Keys;
  }

  /** A side has only one listing: whatever sort produced it, the rebuilt
      book is determined by the map. */
  lemma {:induction false} ListingUnique(s: seq<Level>, t: seq<Level>, side: map<real, Level>, descending: bool)
    requires IsListing(s, side, descending) && IsListing(t, side, descending)
    ensures s == t
    decreases |s|
  {
    assert s != [] ==> s[0].price in PriceSet(s);
    assert t != [] ==> t[0].price in PriceSet(t);
    if s != [] {
      assert t != [];
      if s[0].price != t[0].price {
        ListingHead(s, side, descending, t[0].price);
        ListingHead(t, side, descending, s[0].price);
      }
      ListingTail(s, side, descending);
      ListingTail(t, side, descending);
      ListingUnique(s[1..], t[1..], side - {s[0].price}, descending);
      assert s == [s[0]] + s[1..] && t == [t[0]] + t[1..];
    }
  }

  // ---------------------------------------------------------------------
  // The callbacks' loops over one side

  /** `levels.forEach(level => map.set(level.price, level))`. */
  method SetAll(side: map<real, Level>, keys: seq<real>, levels: seq<Level>)
    returns (side': map<real, Level>, keys': seq<real>)
    requires KeyedByPrice(side) && Tracks(keys, side)
    ensures side' == Fill(side, levels) && keys' == FillOrder(keys, levels)
    ensures KeyedByPrice(side') && Tracks(keys', side')
  {
    side', keys' := side, keys;
    for i := 0 to |levels|
      invariant side' == Fill(side, levels[..i]) && keys' == FillOrder(keys, levels[..i])
    {
      assert levels[..i + 1][..i] == levels[..i];
      var level := levels[i];
      side', keys' := side'[level.price := level], WithKey(keys', level.price);
    }
    assert levels[..|levels|] == levels;
    FillTracks(keys, side, levels);
  }

  /** The update callback's loop over one side: quantity 0 deletes the
      price, any other quantity sets it. */
  method EditAll(side: map<real, Level>, keys: seq<real>, levels: seq<Level>)
    returns (side': map<real, Level>, keys': seq<real>)
    requires KeyedByPrice(side) && Tracks(keys, side)
    ensures side' == ApplyChanges(side, levels) && keys' == ApplyOrder(keys, levels)
    ensures KeyedByPrice(side') && Tracks(keys', side')
  {
    side', keys' := side, keys;
    for i := 0 to |levels|
      invariant side' == ApplyChanges(side, levels[..i]) && keys' == ApplyOrder(keys, levels[..i])
    {
      assert levels[..i + 1][..i] == levels[..i];
      var level := levels[i];
      if level.quantity == 0.0 {
        side', keys' := side' - {level.price}, Without(keys', level.price);
      } else {
        side', keys' := side'[level.price := level], WithKey(keys', level.price);
      }
    }
    assert levels[..|levels|] == levels;
    ApplyTracks(keys, side, levels);
  }

  // ---------------------------------------------------------------------
  // The hook's two maps

  /** The maps `currentOrderbookRef` (bids) and `currentAsksRef` (asks). */
  class BookMaps {
    var bids: map<real, Level>
    var asks: map<real, Level>
    /** Insertion order of the two maps' keys. */
    var bidKeys: seq<real>
    var askKeys: seq<real>

    ghost predicate Valid()
      reads this
    {
      && KeyedByPrice(bids) && KeyedByPrice(asks)
      && Tracks(bidKeys, bids) && Tracks(askKeys, asks)
    }

    constructor ()
      ensures Valid() && bids == map[] && asks == map[]
    {
      bids := map[];
      asks := map[];
      bidKeys := [];
      askKeys := [];
    }

    /** The snapshot callback: both maps are cleared and refilled from the
        snapshot; the aggregated book is the snapshot's own level lists. */
    method OnSnapshot(s: Snapshot) returns (book: AggregatedOrderbook, metrics: Metrics)
      modifies this
      ensures Valid()
      ensures bids == Fill(map[], s.bids) && asks == Fill(map[], s.asks)
      ensures bidKeys == FillOrder([], s.bids) && askKeys == FillOrder([], s.asks)
      ensures book == BookMetrics.ConvertToAggregated(s)
      ensures metrics == BookMetrics.MetricsOf(book)
    {
      bids, bidKeys := SetAll(map[], [], s.bids);
      asks, askKeys := SetAll(map[], [], s.asks);
      book := BookMetrics.ConvertToAggregated(s);
      metrics := BookMetrics.CalculateMetrics(book);
    }

    /** The update callback: each change deletes or sets its price, with no
        check of the update ids; the book is then rebuilt from the maps with
        bids descending and asks ascending, and carries the update's final id. */
    method OnUpdate(u: Update) returns (rebuilt: Snapshot, book: AggregatedOrderbook, metrics: Metrics)
      requires Valid()
      modifies this
      ensures Valid()
      ensures bids == ApplyChanges(old(bids), u.bids) && bidKeys == ApplyOrder(old(bidKeys), u.bids)
      ensures asks == ApplyChanges(old(asks), u.asks) && askKeys == ApplyOrder(old(askKeys), u.asks)
      ensures rebuilt.symbol == u.symbol && rebuilt.venue == u.venue && rebuilt.timestamp == u.timestamp
      ensures rebuilt.lastUpdateId == u.finalUpdateId
      ensures IsListing(rebuilt.bids, bids, true)
      ensures IsListing(rebuilt.asks, asks, false)
      ensures book == BookMetrics.ConvertToAggregated(rebuilt)
      ensures metrics == BookMetrics.MetricsOf(book)
    {
      bids, bidKeys := EditAll(bids, bidKeys, u.bids);
      asks, askKeys := EditAll(asks, askKeys, u.asks);
      var sortedBids := ListLevels(bids, bidKeys, true);
      var sortedAsks := ListLevels(asks, askKeys, false);
      rebuilt := Snapshot(u.symbol, u.venue, u.timestamp, u.finalUpdateId, sortedBids, sortedAsks);
      book := BookMetrics.ConvertToAggregated(rebuilt);
      metrics := BookMetrics.CalculateMetrics(book);
    }
  }
}
