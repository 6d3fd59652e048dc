/** The `orderbook` store slice: the latest aggregated book, its metrics,
    the connection flags and the list of venues the user selected. */
module OrderbookSlice {
  import opened Wrappers
  import opened Seqs
  import opened OrderbookTypes

  /** The error recorded when the connection drops. */
  const ConnectionLost: string := "Connection lost"

  /** The slice's value, field by field. */
  datatype OrderbookState = OrderbookState(
    snapshot: Option<AggregatedOrderbook>,
    isConnected: bool,
    isLoading: bool,
    error: Option<string>,
    lastUpdate: int,
    metrics: Option<Metrics>,
    pressureZones: seq<PressureZone>,
    selectedVenues: seq<VenueId>,
    updateCount: int)

  /** Nothing loaded, disconnected, Binance selected. */
  const Initial: OrderbookState :=
    OrderbookState(None, false, false, None, 0, None, [], [Binance], 0)

  /** JavaScript truthiness of a `string | null` payload: neither null nor
      the empty string. */
  predicate Truthy(payload: Option<string>) {
    payload.Some? && payload.value != ""
  }

  /** `toggleVenue` on the venue list: the first occurrence of `v` is spliced
      out when there is one, otherwise `v` is pushed at the end. */
  function Toggle(s: seq<VenueId>, v: VenueId): seq<VenueId> {
    if IndexOf(s, v) < |s| then RemoveFirst(s, v) else s + [v]
  }

  /** With at most one copy of `v` in the list, a toggle flips whether `v`
      is selected and leaves every other venue as it was. */
  lemma ToggleMembership(s: seq<VenueId>, v: VenueId)
    requires multiset(s)[v] <= 1
    ensures v in Toggle(s, v) <==> v !in s
    ensures forall w :: w != v ==> (w in Toggle(s, v) <==> w in s)
  {
    var r := Toggle(s, v);
    if v in s {
      assert multiset(r) == multiset(s) - multiset{v};
      assert multiset(r)[v] == 0;
      forall w | w != v ensures w in r <==> w in s {
        assert multiset(r)[w] == multiset(s)[w];
      }
    } else {
      assert r == s + [v];
    }
  }

  /** A toggle never leaves two copies of the toggled venue. */
  lemma ToggleKeepsSingle(s: seq<VenueId>, v: VenueId)
    requires multiset(s)[v] <= 1
    ensures multiset(Toggle(s, v))[v] <= 1
  {
    if v !in s {
      assert Toggle(s, v) == s + [v];
      assert multiset(s + [v]) == multiset(s) + multiset{v};
    }
  }

  /** Toggling a venue that was just appended removes exactly that copy. */
  lemma ToggleAppended(s: seq<VenueId>, v: VenueId)
    requires v !in s
    ensures Toggle(s + [v], v) == s
  {
    var t := s + [v];
    var k := IndexOf(t, v);
    assert t[|s|] == v;
    assert forall i :: 0 <= i < |s| ==> t[i] == s[i] && s[i] != v;
    assert k == |s|;
    assert t[..k] == s;
  }

  /** Toggling the same venue twice restores the selection; when the venue
      was not selected, it restores the very list. */
  lemma ToggleTwice(s: seq<VenueId>, v: VenueId)
    requires multiset(s)[v] <= 1
    ensures forall w :: w in Toggle(Toggle(s, v), v) <==> w in s
    ensures v !in s ==> Toggle(Toggle(s, v), v) == s
  {
    ToggleMembership(s, v);
    ToggleKeepsSingle(s, v);
    ToggleMembership(Toggle(s, v), v);
    if v !in s {
      assert Toggle(s, v) == s + [v];
      ToggleAppended(s, v);
    }
  }

  /** A list of distinct venues stays distinct. */
  lemma ToggleKeepsDistinct(s: seq<VenueId>, v: VenueId)
    requires Distinct(s)
    ensures Distinct(Toggle(s, v))
  {
    var k := IndexOf(s, v);
    var r := Toggle(s, v);
    if k < |s| {
      assert r == s[..k] + s[k + 1..];
      forall i, j | 0 <= i < j < |r| ensures r[i] != r[j] {
        var i' := if i < k then i else i + 1;
        var j' := if j < k then j else j + 1;
        assert r[i] == s[i'] && r[j] == s[j'];
      }
    } else {
      assert v !in s;
      assert r == s + [v];
    }
  }

  class OrderbookStore {
    var snapshot: Option<AggregatedOrderbook>
    var isConnected: bool
    var isLoading: bool
    var error: Option<string>
    var lastUpdate: int
    var metrics: Option<Metrics>
    var pressureZones: seq<PressureZone>
    var selectedVenues: seq<VenueId>
    var updateCount: int

    /** The store's current value. */
    function State(): OrderbookState
      reads this
    {
      OrderbookState(snapshot, isConnected, isLoading, error, lastUpdate, metrics,
                     pressureZones, selectedVenues, updateCount)
    }

    constructor ()
      ensures State() == Initial
    {
      snapshot, isConnected, isLoading, error := None, false, false, None;
      lastUpdate, metrics, pressureZones := 0, None, [];
      selectedVenues, updateCount := [Binance], 0;
    }

    method SetLoading(loading: bool)
      modifies this
      ensures State() == old(State()).(isLoading := loading)
    {
      isLoading := loading;
    }

    /** A live connection clears the error; a lost one records it. */
    method SetConnected(connected: bool)
      modifies this
      ensures State() == old(State()).(isConnected := connected,
                                       error := if connected then None else Some(ConnectionLost))
    {
      isConnected := connected;
      if !connected {
        error := Some(ConnectionLost);
      } else {
        error := None;
      }
    }

    /** The payload is stored as given; a non-empty message also marks the
        store disconnected, while null or "" leaves the flag alone. */
    method SetError(payload: Option<string>)
      modifies this
      ensures State() == old(State()).(error := payload,
                                       isConnected := if Truthy(payload) then false else old(isConnected))
    {
      error := payload;
      if Truthy(payload) {
        isConnected := false;
      }
    }

    /** A new book: stored, stamped with the clock reading `now`, counted
        once, and any error cleared. */
    method UpdateSnapshot(book: AggregatedOrderbook, now: int)
      modifies this
      ensures State() == old(State()).(snapshot := Some(book), lastUpdate := now,
                                       updateCount := old(updateCount) + 1, error := None)
    {
      snapshot := Some(book);
      lastUpdate := now;
      updateCount := updateCount + 1;
      error := None;
    }

    method UpdateMetrics(m: Metrics)
      modifies this
      ensures State() == old(State()).(metrics := Some(m))
    {
      metrics := Some(m);
    }

    method UpdatePressureZones(zones: seq<PressureZone>)
      modifies this
      ensures State() == old(State()).(pressureZones := zones)
    {
      pressureZones := zones;
    }

    /** The list is stored as given: nothing keeps it free of repeats. */
    method SetSelectedVenues(venues: seq<VenueId>)
      modifies this
      ensures State() == old(State()).(selectedVenues := venues)
    {
      selectedVenues := venues;
    }

    method ToggleVenue(venue: VenueId)
      modifies this
      ensures State() == old(State()).(selectedVenues := Toggle(old(selectedVenues), venue))
    {
      var index := IndexOf(selectedVenues, venue);
      if index < |selectedVenues| {
        selectedVenues := selectedVenues[..index] + selectedVenues[index + 1..];
      } else {
        selectedVenues := selectedVenues + [venue];
      }
    }

    /** Drops the book and its derived data; the connection flags and the
        error stay as they are. */
    method ClearOrderbook()
      modifies this
      ensures State() == old(State()).(snapshot := None, metrics := None, pressureZones := [],
                                       updateCount := 0, lastUpdate := 0)
    {
      snapshot := None;
      metrics := None;
      pressureZones := [];
      updateCount := 0;
      lastUpdate := 0;
    }

    method ResetConnection()
      modifies this
      ensures State() == old(State()).(isConnected := false, isLoading := false, error := None)
    {
      isConnected := false;
      isLoading := false;
      error := None;
    }
  }

  /** On a store whose selection holds `v` at most once, two `toggleVenue`
      actions for `v` leave the same venues selected. */
  method ToggleVenueTwice(venues: seq<VenueId>, v: VenueId) returns (after: seq<VenueId>)
    requires multiset(venues)[v] <= 1
    ensures forall w :: w in after <==> w in venues
    ensures v !in venues ==> after == venues
  {
    var store := new OrderbookStore();
    store.SetSelectedVenues(venues);
    store.ToggleVenue(v);
    store.ToggleVenue(v);
    after := store.selectedVenues;
    ToggleTwice(venues, v);
  }
}
