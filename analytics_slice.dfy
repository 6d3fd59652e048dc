/** The `analytics` store slice: spread and imbalance histories with their
    statistics, the volume profile, pressure-zone levels, rendering
    statistics and the alert list. */
module AnalyticsSlice {
  import opened Wrappers
  import opened Seqs
  import opened Numbers

  /** Both histories keep their most recent 1000 points. */
  const HistoryLimit: nat := 1000
  /** The alert list keeps its 50 newest alerts. */
  const AlertLimit: nat := 50
  const BullishAbove: real := 1.1
  const BearishBelow: real := 0.9

  datatype SpreadData = SpreadData(
    timestamp: int,
    spread: real,
    spreadPercentage: real,
    bidPrice: real,
    askPrice: real)

  datatype ImbalanceData = ImbalanceData(
    timestamp: int,
    bidVolume: real,
    askVolume: real,
    imbalance: real,
    imbalancePercentage: real)

  datatype VolumeProfileLevel = VolumeProfileLevel(price: real, volume: real, percentage: real)

  datatype Trend = Bullish | Bearish | Neutral
  datatype AlertKind = SpreadAlert | ImbalanceAlert | PressureAlert | VolumeAlert
  datatype Severity = LowSeverity | MediumSeverity | HighSeverity

  datatype Alert = Alert(
    id: string,
    kind: AlertKind,
    message: string,
    timestamp: int,
    severity: Severity,
    acknowledged: bool)

  /** An alert as dispatched, before the slice gives it an id. */
  datatype AlertDraft = AlertDraft(
    kind: AlertKind,
    message: string,
    timestamp: int,
    severity: Severity,
    acknowledged: bool)

  datatype SpreadStats = SpreadStats(
    current: Option<SpreadData>,
    history: seq<SpreadData>,
    average: real,
    min: real,
    max: real)

  datatype ImbalanceStats = ImbalanceStats(
    current: Option<ImbalanceData>,
    history: seq<ImbalanceData>,
    trend: Trend)

  datatype VolumeProfile = VolumeProfile(
    levels: seq<VolumeProfileLevel>,
    totalVolume: real,
    maxVolumePrice: real,
    lastUpdate: int)

  datatype PressureZoneStats = PressureZoneStats(
    supportLevels: seq<real>,
    resistanceLevels: seq<real>,
    strongestSupport: Option<real>,
    strongestResistance: Option<real>)

  datatype PerformanceStats = PerformanceStats(
    fps: real,
    renderTime: real,
    memoryUsage: real,
    particleCount: real,
    updateLatency: real)

  /** `Partial` of the performance statistics. */
  datatype PerformancePatch = PerformancePatch(
    fps: Option<real>,
    renderTime: Option<real>,
    memoryUsage: Option<real>,
    particleCount: Option<real>,
    updateLatency: Option<real>)
  {
    /** `{ ...s, ...this }`. */
    function Apply(s: PerformanceStats): PerformanceStats {
      PerformanceStats(fps.GetOr(s.fps), renderTime.GetOr(s.renderTime), memoryUsage.GetOr(s.memoryUsage),
                       particleCount.GetOr(s.particleCount), updateLatency.GetOr(s.updateLatency))
    }
  }

  datatype AnalyticsState = AnalyticsState(
    spread: SpreadStats,
    imbalance: ImbalanceStats,
    volumeProfile: VolumeProfile,
    pressureZoneStats: PressureZoneStats,
    performance: PerformanceStats,
    alerts: seq<Alert>)

  const Initial: AnalyticsState := AnalyticsState(
    SpreadStats(None, [], 0.0, 0.0, 0.0),
    ImbalanceStats(None, [], Neutral),
    VolumeProfile([], 0.0, 0.0, 0),
    PressureZoneStats([], [], None, None),
    PerformanceStats(60.0, 0.0, 0.0, 0.0, 0.0),
    [])

  /** The `spread` field of each point. */
  function SpreadValues(h: seq<SpreadData>): (r: seq<real>)
    ensures |r| == |h|
    ensures forall i :: 0 <= i < |h| ==> r[i] == h[i].spread
  {
    seq(|h|, i requires 0 <= i < |h| => h[i].spread)
  }

  /** Above 1.1 the book leans to buyers, below 0.9 to sellers, and in
      between it is neutral. */
  function TrendOf(imbalance: real): (t: Trend)
    ensures t == Bullish <==> imbalance > BullishAbove
    ensures t == Bearish <==> imbalance < BearishBelow
    ensures t == Neutral <==> BearishBelow <= imbalance <= BullishAbove
  {
    if imbalance > BullishAbove then Bullish
    else if imbalance < BearishBelow then Bearish
    else Neutral
  }

  /** The `volume` field of each level. */
  function Volumes(levels: seq<VolumeProfileLevel>): (r: seq<real>)
    ensures |r| == |levels|
    ensures forall i :: 0 <= i < |levels| ==> r[i] == levels[i].volume
  {
    seq(|levels|, i requires 0 <= i < |levels| => levels[i].volume)
  }

  /** The `reduce` that keeps the running maximum over the first `n` levels,
      starting from the first level and replacing it only on a strictly
      greater volume: the earliest level of greatest volume. */
  function MaxVolumeIndex(levels: seq<VolumeProfileLevel>, n: nat): (k: nat)
    requires 0 < n <= |levels|
    ensures k < n
    ensures forall i :: 0 <= i < n ==> levels[i].volume <= levels[k].volume
    ensures forall i :: 0 <= i < k ==> levels[i].volume < levels[k].volume
  {
    if n == 1 then 0
    else
      var k := MaxVolumeIndex(levels, n - 1);
      if levels[n - 1].volume > levels[k].volume then n - 1 else k
  }

  /** The price of the earliest level of greatest volume, or 0 for an empty
      profile (the fallback level `{ price: 0 }`). */
  function MaxVolumePrice(levels: seq<VolumeProfileLevel>): (p: real)
    ensures levels == [] ==> p == 0.0
    ensures levels != [] ==> exists k :: 0 <= k < |levels| && p == levels[k].price &&
                                         (forall i :: 0 <= i < |levels| ==> levels[i].volume <= levels[k].volume) &&
                                         (forall i :: 0 <= i < k ==> levels[i].volume < levels[k].volume)
  {
    if levels == [] then 0.0 else levels[MaxVolumeIndex(levels, |levels|)].price
  }

  /** `levels[0] || null`: the first level unless the list is empty or the
      first level is 0, which JavaScript reads as false. */
  function Strongest(levels: seq<real>): (r: Option<real>)
    ensures r.Some? <==> |levels| > 0 && levels[0] != 0.0
    ensures r.Some? ==> r.value == levels[0]
  {
    if |levels| > 0 && levels[0] != 0.0 then Some(levels[0]) else None
  }

  /** `findIndex` by id: the position of the first alert with `id`, or the
      length of the list when there is none. */
  function FirstWithId(alerts: seq<Alert>, id: string): (k: nat)
    ensures k <= |alerts|
    ensures k < |alerts| ==> alerts[k].id == id
    ensures forall i :: 0 <= i < k ==> alerts[i].id != id
  {
    if alerts == [] then 0
    else if alerts[0].id == id then 0
    else 1 + FirstWithId(alerts[1..], id)
  }

  /** `acknowledgeAlert`: the first alert with `id` is marked acknowledged;
      every other alert, including later ones with the same id, is kept. */
  function Acknowledged(alerts: seq<Alert>, id: string): (r: seq<Alert>)
    ensures |r| == |alerts|
    ensures forall i :: 0 <= i < |alerts| && i != FirstWithId(alerts, id) ==> r[i] == alerts[i]
    ensures FirstWithId(alerts, id) < |alerts| ==>
              r[FirstWithId(alerts, id)] == alerts[FirstWithId(alerts, id)].(acknowledged := true)
    ensures (forall i :: 0 <= i < |alerts| ==> alerts[i].id != id) ==> r == alerts
  {
    var k := FirstWithId(alerts, id);
    if k < |alerts| then alerts[k := alerts[k].(acknowledged := true)] else alerts
  }

  /** `filter(a => a.id !== id)`: every alert with `id` goes, every other
      alert stays, in order. */
  function WithoutId(alerts: seq<Alert>, id: string): (r: seq<Alert>)
    ensures |r| <= |alerts|
    ensures forall a :: a in r <==> a in alerts && a.id != id
    ensures (forall i :: 0 <= i < |alerts| ==> alerts[i].id != id) ==> r == alerts
  {
    if alerts == [] then []
    else if alerts[0].id == id then WithoutId(alerts[1..], id)
    else [alerts[0]] + WithoutId(alerts[1..], id)
  }

  /** The filter works alert by alert: on a concatenation it is the
      concatenation of the filtered parts, so order and repetitions of the
      kept alerts are those of the input. */
  lemma {:induction false} WithoutIdAppend(a: seq<Alert>, b: seq<Alert>, id: string)
    ensures WithoutId(a + b, id) == WithoutId(a, id) + WithoutId(b, id)
  {
    if a == [] {
      assert a + b == b;
    } else {
      assert (a + b)[1..] == a[1..] + b;
      WithoutIdAppend(a[1..], b, id);
    }
  }

  /** On one alert, the filter keeps it exactly when its id differs. */
  lemma WithoutIdSingle(x: Alert, id: string)
    ensures WithoutId([x], id) == (if x.id == id then [] else [x])
  {
    assert [x][1..] == [];
  }

  /** Removing an id twice removes nothing more. */
  lemma {:induction false} WithoutIdIdempotent(alerts: seq<Alert>, id: string)
    ensures WithoutId(WithoutId(alerts, id), id) == WithoutId(alerts, id)
  {
    var r := WithoutId(alerts, id);
    forall i | 0 <= i < |r| ensures r[i].id != id {
      assert r[i] in r;
    }
  }

  class AnalyticsStore {
    var spread: SpreadStats
    var imbalance: ImbalanceStats
    var volumeProfile: VolumeProfile
    var pressureZoneStats: PressureZoneStats
    var performance: PerformanceStats
    var alerts: seq<Alert>

    function State(): AnalyticsState
      reads this
    {
      AnalyticsState(spread, imbalance, volumeProfile, pressureZoneStats, performance, alerts)
    }

    constructor ()
      ensures State() == Initial
    {
      spread, imbalance, volumeProfile := Initial.spread, Initial.imbalance, Initial.volumeProfile;
      pressureZoneStats, performance, alerts := Initial.pressureZoneStats, Initial.performance, Initial.alerts;
    }

    /** Records a spread point, trims the history to its last 1000 points
        and recomputes mean, minimum and maximum over what is kept. */
    method UpdateSpreadData(d: SpreadData)
      modifies this
      ensures spread.current == Some(d)
      ensures spread.history == KeepLast(old(spread.history) + [d], HistoryLimit)
      ensures |SpreadValues(spread.history)| > 0
      ensures spread.average == Sum(SpreadValues(spread.history)) / |spread.history| as real
      ensures spread.min == MinOf(SpreadValues(spread.history))
      ensures spread.max == MaxOf(SpreadValues(spread.history))
      ensures spread.min <= spread.average <= spread.max
      ensures State() == old(State()).(spread := spread)
    {
      var history := spread.history + [d];
      if |history| > HistoryLimit {
        history := history[|history| - HistoryLimit..];
      }
      AppendKeepLast(old(spread.history), d, HistoryLimit);
      var spreads := SpreadValues(history);
      spread := SpreadStats(Some(d), history, Sum(spreads) / |spreads| as real, MinOf(spreads), MaxOf(spreads));
      MeanBetweenExtremes(spreads);
    }

    /** Records an imbalance point, trims the history to its last 1000
        points and classifies the point's ratio. */
    method UpdateImbalanceData(d: ImbalanceData)
      modifies this
      ensures State() == old(State()).(imbalance := ImbalanceStats(
                Some(d), KeepLast(old(imbalance.history) + [d], HistoryLimit), TrendOf(d.imbalance)))
    {
      var history := imbalance.history + [d];
      if |history| > HistoryLimit {
        history := history[|history| - HistoryLimit..];
      }
      var trend;
      if d.imbalance > BullishAbove {
        trend := Bullish;
      } else if d.imbalance < BearishBelow {
        trend := Bearish;
      } else {
        trend := Neutral;
      }
      imbalance := ImbalanceStats(Some(d), history, trend);
    }

    /** Stores the levels with their total volume and the price of greatest
        volume, stamped with the clock reading `now`. */
    method UpdateVolumeProfile(levels: seq<VolumeProfileLevel>, now: int)
      modifies this
      ensures State() == old(State()).(volumeProfile := VolumeProfile(
                levels, Sum(Volumes(levels)), MaxVolumePrice(levels), now))
    {
      volumeProfile := VolumeProfile(levels, Sum(Volumes(levels)), MaxVolumePrice(levels), now);
    }

    method UpdatePressureZoneStats(support: seq<real>, resistance: seq<real>)
      modifies this
      ensures State() == old(State()).(pressureZoneStats := PressureZoneStats(
                support, resistance, Strongest(support), Strongest(resistance)))
    {
      pressureZoneStats := PressureZoneStats(support, resistance, Strongest(support), Strongest(resistance));
    }

    method UpdatePerformanceStats(p: PerformancePatch)
      modifies this
      ensures State() == old(State()).(performance := p.Apply(old(performance)))
    {
      performance := p.Apply(performance);
    }

    /** Puts the alert, with the id the caller generated, in front and keeps
        the 50 newest. */
    method AddAlert(draft: AlertDraft, id: string)
      modifies this
      ensures var a := Alert(id, draft.kind, draft.message, draft.timestamp, draft.severity, draft.acknowledged);
              State() == old(State()).(alerts := KeepFirst([a] + old(alerts), AlertLimit))
      ensures 0 < |alerts| <= AlertLimit && alerts[0].id == id
    {
      var a := Alert(id, draft.kind, draft.message, draft.timestamp, draft.severity, draft.acknowledged);
      alerts := [a] + alerts;
      if |alerts| > AlertLimit {
        alerts := alerts[..AlertLimit];
      }
    }

    method AcknowledgeAlert(id: string)
      modifies this
      ensures State() == old(State()).(alerts := Acknowledged(old(alerts), id))
    {
      var k := FirstWithId(alerts, id);
      if k < |alerts| {
        alerts := alerts[k := alerts[k].(acknowledged := true)];
      }
    }

    method RemoveAlert(id: string)
      modifies this
      ensures State() == old(State()).(alerts := WithoutId(old(alerts), id))
    {
      alerts := WithoutId(alerts, id);
    }

    method ClearAlerts()
      modifies this
      ensures State() == old(State()).(alerts := [])
    {
      alerts := [];
    }

    /** Empties both histories and the alerts; current values and the
        statistics computed from the histories stay. */
    method ClearHistory()
      modifies this
      ensures State() == old(State()).(spread := old(spread).(history := []),
                                       imbalance := old(imbalance).(history := []),
                                       alerts := [])
    {
      spread := spread.(history := []);
      imbalance := imbalance.(history := []);
      alerts := [];
    }

    method ResetAnalytics()
      modifies this
      ensures State() == Initial
    {
      spread, imbalance, volumeProfile := Initial.spread, Initial.imbalance, Initial.volumeProfile;
      pressureZoneStats, performance, alerts := Initial.pressureZoneStats, Initial.performance, Initial.alerts;
    }
  }
}
