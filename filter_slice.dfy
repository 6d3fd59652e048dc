/** The `filters` store slice: price and quantity filters, the time window,
    per-venue visibility and opacity, the visualization switches and the
    search fields. */
module FilterSlice {
  import opened Wrappers
  import opened OrderbookTypes
  import opened Numbers

  datatype TimeRangeKind = OneMinute | FiveMinutes | FifteenMinutes | OneHour | Custom

  datatype PriceRange = PriceRange(min: real, max: real, enabled: bool)
  datatype QuantityThreshold = QuantityThreshold(min: real, enabled: bool)
  /** A window of `duration` milliseconds. */
  datatype TimeRange = TimeRange(duration: int, kind: TimeRangeKind)
  datatype VenueFilter = VenueFilter(enabled: bool, opacity: real)

  /** One filter per venue, as the record keyed by venue id. */
  datatype VenueFilters = VenueFilters(binance: VenueFilter, okx: VenueFilter,
                                       bybit: VenueFilter, deribit: VenueFilter)
  {
    function Get(v: VenueId): VenueFilter {
      match v
      case Binance => binance
      case Okx => okx
      case Bybit => bybit
      case Deribit => deribit
    }

    /** Replaces the filter of `v` and of no other venue. */
    function With(v: VenueId, f: VenueFilter): (r: VenueFilters)
      ensures r.Get(v) == f
      ensures forall w :: w != v ==> r.Get(w) == Get(w)
    {
      match v
      case Binance => this.(binance := f)
      case Okx => this.(okx := f)
      case Bybit => this.(bybit := f)
      case Deribit => this.(deribit := f)
    }
  }

  /** The five switches of the visualization group. */
  datatype Switch = ShowBids | ShowAsks | ShowPressureZones | ShowVolumeProfile | ShowOrderFlow

  datatype VisualizationFilters = VisualizationFilters(
    showBids: bool,
    showAsks: bool,
    showPressureZones: bool,
    showVolumeProfile: bool,
    showOrderFlow: bool)
  {
    function Get(sw: Switch): bool {
      match sw
      case ShowBids => showBids
      case ShowAsks => showAsks
      case ShowPressureZones => showPressureZones
      case ShowVolumeProfile => showVolumeProfile
      case ShowOrderFlow => showOrderFlow
    }

    /** Negates switch `sw` and keeps the other four. */
    function Flip(sw: Switch): (r: VisualizationFilters)
      ensures r.Get(sw) == !Get(sw)
      ensures forall other :: other != sw ==> r.Get(other) == Get(other)
    {
      match sw
      case ShowBids => this.(showBids := !showBids)
      case ShowAsks => this.(showAsks := !showAsks)
      case ShowPressureZones => this.(showPressureZones := !showPressureZones)
      case ShowVolumeProfile => this.(showVolumeProfile := !showVolumeProfile)
      case ShowOrderFlow => this.(showOrderFlow := !showOrderFlow)
    }
  }

  /** Flipping a switch twice restores the group. */
  lemma FlipTwice(vis: VisualizationFilters, sw: Switch)
    ensures vis.Flip(sw).Flip(sw) == vis
  {
  }

  /** Flips `enabled` of venue `v`, keeping its opacity. */
  function ToggleVenueFilter(venues: VenueFilters, v: VenueId): (r: VenueFilters)
    ensures r.Get(v).enabled == !venues.Get(v).enabled
    ensures r.Get(v).opacity == venues.Get(v).opacity
    ensures forall w :: w != v ==> r.Get(w) == venues.Get(w)
  {
    venues.With(v, venues.Get(v).(enabled := !venues.Get(v).enabled))
  }

  /** Toggling a venue twice restores every venue's filter. */
  lemma ToggleVenueFilterTwice(venues: VenueFilters, v: VenueId)
    ensures ToggleVenueFilter(ToggleVenueFilter(venues, v), v) == venues
  {
    var once := ToggleVenueFilter(venues, v);
    var twice := ToggleVenueFilter(once, v);
    assert twice.Get(v) == venues.Get(v);
    assert forall w :: twice.Get(w) == venues.Get(w);
    assert twice.binance == twice.Get(Binance) && twice.okx == twice.Get(Okx);
    assert twice.bybit == twice.Get(Bybit) && twice.deribit == twice.Get(Deribit);
  }

  datatype Search = Search(priceLevel: Option<real>, venue: Option<VenueId>)

  datatype FiltersState = FiltersState(
    priceRange: PriceRange,
    quantityThreshold: QuantityThreshold,
    timeRange: TimeRange,
    venues: VenueFilters,
    visualization: VisualizationFilters,
    search: Search)

  const InitialVisualization: VisualizationFilters :=
    VisualizationFilters(true, true, true, false, false)

  /** Prices 0 to 100000 (off), no quantity threshold (off), a five-minute
      window, only OKX enabled, every opacity 1, no search. */
  const Initial: FiltersState := FiltersState(
    PriceRange(0.0, 100000.0, false),
    QuantityThreshold(0.0, false),
    TimeRange(5 * 60 * 1000, FiveMinutes),
    VenueFilters(VenueFilter(false, 1.0), VenueFilter(true, 1.0),
                 VenueFilter(false, 1.0), VenueFilter(false, 1.0)),
    InitialVisualization,
    Search(None, None))

  /** In the initial state OKX is the only enabled venue and the window
      is 300000 ms. */
  lemma InitiallyOnlyOkx()
    ensures forall v :: Initial.venues.Get(v).enabled <==> v == Okx
    ensures Initial.timeRange.duration == 300000
  {
  }

  class FiltersStore {
    var priceRange: PriceRange
    var quantityThreshold: QuantityThreshold
    var timeRange: TimeRange
    var venues: VenueFilters
    var visualization: VisualizationFilters
    var search: Search

    function State(): FiltersState
      reads this
    {
      FiltersState(priceRange, quantityThreshold, timeRange, venues, visualization, search)
    }

    constructor ()
      ensures State() == Initial
    {
      priceRange, quantityThreshold, timeRange := Initial.priceRange, Initial.quantityThreshold, Initial.timeRange;
      venues, visualization, search := Initial.venues, Initial.visualization, Initial.search;
    }

    /** Bounds are stored as given, even with min above max; `enabled` is
        left alone. */
    method SetPriceRange(min: real, max: real)
      modifies this
      ensures State() == old(State()).(priceRange := PriceRange(min, max, old(priceRange.enabled)))
    {
      priceRange := priceRange.(min := min, max := max);
    }

    method TogglePriceRangeFilter()
      modifies this
      ensures State() == old(State()).(priceRange := old(priceRange).(enabled := !old(priceRange.enabled)))
    {
      priceRange := priceRange.(enabled := !priceRange.enabled);
    }

    method SetQuantityThreshold(min: real)
      modifies this
      ensures State() == old(State()).(quantityThreshold := old(quantityThreshold).(min := min))
    {
      quantityThreshold := quantityThreshold.(min := min);
    }

    method ToggleQuantityFilter()
      modifies this
      ensures State() == old(State()).(quantityThreshold :=
                                         old(quantityThreshold).(enabled := !old(quantityThreshold.enabled)))
    {
      quantityThreshold := quantityThreshold.(enabled := !quantityThreshold.enabled);
    }

    method SetTimeRange(range: TimeRange)
      modifies this
      ensures State() == old(State()).(timeRange := range)
    {
      timeRange := range;
    }

    method ToggleVenue(venue: VenueId)
      modifies this
      ensures State() == old(State()).(venues := ToggleVenueFilter(old(venues), venue))
    {
      venues := ToggleVenueFilter(venues, venue);
    }

    /** The opacity is stored clamped to [0, 1]. */
    method SetVenueOpacity(venue: VenueId, opacity: real)
      modifies this
      ensures State() == old(State()).(venues := old(venues).With(venue, old(venues.Get(venue)).(opacity := Clamp01(opacity))))
      ensures 0.0 <= venues.Get(venue).opacity <= 1.0
    {
      venues := venues.With(venue, venues.Get(venue).(opacity := Clamp01(opacity)));
    }

    method ToggleBids()
      modifies this
      ensures State() == old(State()).(visualization := old(visualization).Flip(ShowBids))
    {
      visualization := visualization.Flip(ShowBids);
    }

    method ToggleAsks()
      modifies this
      ensures State() == old(State()).(visualization := old(visualization).Flip(ShowAsks))
    {
      visualization := visualization.Flip(ShowAsks);
    }

    method TogglePressureZones()
      modifies this
      ensures State() == old(State()).(visualization := old(visualization).Flip(ShowPressureZones))
    {
      visualization := visualization.Flip(ShowPressureZones);
    }

    method ToggleVolumeProfile()
      modifies this
      ensures State() == old(State()).(visualization := old(visualization).Flip(ShowVolumeProfile))
    {
      visualization := visualization.Flip(ShowVolumeProfile);
    }

    method ToggleOrderFlow()
      modifies this
      ensures State() == old(State()).(visualization := old(visualization).Flip(ShowOrderFlow))
    {
      visualization := visualization.Flip(ShowOrderFlow);
    }

    method SetSearchPriceLevel(level: Option<real>)
      modifies this
      ensures State() == old(State()).(search := old(search).(priceLevel := level))
    {
      search := search.(priceLevel := level);
    }

    method SetSearchVenue(venue: Option<VenueId>)
      modifies this
      ensures State() == old(State()).(search := old(search).(venue := venue))
    {
      search := search.(venue := venue);
    }

    method ResetFilters()
      modifies this
      ensures State() == Initial
    {
      priceRange, quantityThreshold, timeRange := Initial.priceRange, Initial.quantityThreshold, Initial.timeRange;
      venues, visualization, search := Initial.venues, Initial.visualization, Initial.search;
    }

    /** Only the visualization group returns to its initial switches. */
    method ResetVisualizationFilters()
      modifies this
      ensures State() == old(State()).(visualization := InitialVisualization)
    {
      visualization := InitialVisualization;
    }
  }

  /** Every boolean toggle of the store, applied twice, leaves the whole
      store as it was. */
  method TogglesAreInvolutions(store: FiltersStore, venue: VenueId)
    modifies store
    ensures store.State() == old(store.State())
  {
    store.TogglePriceRangeFilter();
    store.TogglePriceRangeFilter();
    store.ToggleQuantityFilter();
    store.ToggleQuantityFilter();
    store.ToggleVenue(venue);
    store.ToggleVenue(venue);
    ToggleVenueFilterTwice(old(store.venues), venue);
    store.ToggleBids();
    store.ToggleBids();
    store.ToggleAsks();
    store.ToggleAsks();
    store.TogglePressureZones();
    store.TogglePressureZones();
    store.ToggleVolumeProfile();
    store.ToggleVolumeProfile();
    store.ToggleOrderFlow();
    store.ToggleOrderFlow();
  }
}
