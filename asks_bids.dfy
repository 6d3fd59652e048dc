/** The order-book table: the levels nearest the top of the stored lists,
    shown 15 per side. */
module AsksBids {
  import opened Wrappers
  import opened Seqs
  import opened OrderbookTypes

  const TableLevels: nat := 15

  datatype Table = Table(bids: seq<Level>, asks: seq<Level>)

  function Reverse<T>(s: seq<T>): (r: seq<T>)
    ensures |r| == |s|
    ensures forall i :: 0 <= i < |s| ==> r[i] == s[|s| - 1 - i]
  {
    seq(|s|, i requires 0 <= i < |s| => s[|s| - 1 - i])
  }

  /** The table's rows, or nothing to show before the first book. The bids
      are the first 15 stored levels; the asks are the last 15 stored
      levels, last one first. */
  function ProcessedData(snapshot: Option<AggregatedOrderbook>): (r: Option<Table>)
    ensures r.None? <==> snapshot.None?
    ensures r.Some? ==>
              |r.value.bids| == (if |snapshot.value.bids| < TableLevels then |snapshot.value.bids| else TableLevels)
    ensures r.Some? ==>
              |r.value.asks| == (if |snapshot.value.asks| < TableLevels then |snapshot.value.asks| else TableLevels)
    ensures r.Some? ==> forall i :: 0 <= i < |r.value.bids| ==> r.value.bids[i] == snapshot.value.bids[i]
    ensures r.Some? ==>
              forall i :: 0 <= i < |r.value.asks| ==>
                r.value.asks[i] == snapshot.value.asks[|snapshot.value.asks| - 1 - i]
  {
    match snapshot
    case None => None
    case Some(book) => Some(Table(KeepFirst(book.bids, TableLevels), Reverse(KeepLast(book.asks, TableLevels))))
  }

  /** Rows taken index by index from the front of a list come from it. */
  lemma TakenFrom<T>(s: seq<T>, r: seq<T>)
    requires |r| <= |s|
    requires forall i :: 0 <= i < |r| ==> r[i] == s[i]
    ensures forall x :: x in r ==> x in s
  {
    forall x | x in r ensures x in s {
      var i :| 0 <= i < |r| && r[i] == x;
      assert s[i] == x;
    }
  }

  /** Rows taken index by index from the back of a list come from it. */
  lemma TakenFromBack<T>(s: seq<T>, r: seq<T>)
    requires |r| <= |s|
    requires forall i :: 0 <= i < |r| ==> r[i] == s[|s| - 1 - i]
    ensures forall x :: x in r ==> x in s
  {
    forall x | x in r ensures x in s {
      var i :| 0 <= i < |r| && r[i] == x;
      assert s[|s| - 1 - i] == x;
    }
  }

  /** Neither side of the table shows more than 15 rows, and every row is a
      level of the same side of the book. */
  lemma RowsComeFromTheBook(book: AggregatedOrderbook)
    ensures var t := ProcessedData(Some(book)).value;
            |t.bids| <= TableLevels && |t.asks| <= TableLevels &&
            (forall l :: l in t.bids ==> l in book.bids) &&
            (forall l :: l in t.asks ==> l in book.asks)
  {
    var t := ProcessedData(Some(book)).value;
    TakenFrom(book.bids, t.bids);
    TakenFromBack(book.asks, t.asks);
  }
}
