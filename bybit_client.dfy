/** The Bybit feed client: a subscription to the topic
    `orderbook.<depth>.<symbol>`, whose messages carry a full book
    ("snapshot") or changes ("delta") identified by the update id `u`. */
module BybitFeed {
  import opened Wrappers
  import opened OrderbookTypes
  import opened Feed
  import opened Backoff
  import Text
  import Seqs

  const BaseUrl: string := "wss://stream.bybit.com/v5/public/spot"
  const Venue: string := "bybit"

  /** The `data` object of a topic message, decimals parsed. */
  datatype BybitBook = BybitBook(s: string, b: seq<PriceQty>, a: seq<PriceQty>, u: int, seqNo: int)

  /** A parsed socket message: a subscription response (it has `success`),
      a topic message, or anything else. `Malformed` stands for text that
      is not JSON or a topic message without its `data` fields. */
  datatype Message =
    | Malformed
    | Response(success: bool, retMsg: string)
    | Topic(topic: string, kind: string, ts: int, data: BybitBook)
    | Other

  /** The constructor's normalisation: the first '-' is dropped (a string
      pattern replaces one occurrence only) and the rest upper-cased. */
  function NormalizeSymbol(symbol: string): (r: string)
    ensures Text.IsUpperCase(r)
    ensures '-' !in symbol ==> r == Text.Upper(symbol)
    ensures '-' in symbol ==> |r| == |symbol| - 1
    ensures '-' in symbol ==>
              var k := Seqs.IndexOf(symbol, '-');
              symbol[k] == '-' && '-' !in symbol[..k] && r == Text.Upper(symbol[..k] + symbol[k + 1..])
  {
    Text.UpperIsUpperCase(Seqs.RemoveFirst(symbol, '-'));
    Text.Upper(Seqs.RemoveFirst(symbol, '-'))
  }

  /** The one topic the client subscribes to. */
  function TopicName(depth: int, symbol: string): string {
    "orderbook." + Text.IntText(depth) + "." + symbol
  }

  function SubscribeFrame(depth: int, symbol: string): Frame {
    BybitSubscribe("subscribe", [TopicName(depth, symbol)])
  }

  function ErrorText(retMsg: string): string {
    "Bybit WebSocket error: " + retMsg
  }

  /** `handleSnapshot`'s snapshot: named by the message's `s`, identified
      by its `u`. */
  function SnapshotOf(ts: int, d: BybitBook): (s: Snapshot)
    ensures s.symbol == d.s && s.venue == Venue && s.timestamp == ts
    ensures s.lastUpdateId == d.u
    ensures |s.bids| == |d.b| && |s.asks| == |d.a|
    ensures forall i :: 0 <= i < |s.bids| ==> s.bids[i] == Level(d.b[i].price, d.b[i].quantity, ts, Venue)
    ensures forall i :: 0 <= i < |s.asks| ==> s.asks[i] == Level(d.a[i].price, d.a[i].quantity, ts, Venue)
  {
    Snapshot(d.s, Venue, ts, d.u, LevelsOf(d.b, ts, Venue), LevelsOf(d.a, ts, Venue))
  }

  /** `handleUpdate`'s update: from the recorded id + 1 to `u`. */
  function UpdateOf(ts: int, lastUpdateId: int, d: BybitBook): (u: Update)
    ensures u.symbol == d.s && u.venue == Venue && u.timestamp == ts
    ensures u.firstUpdateId == lastUpdateId + 1 && u.finalUpdateId == d.u
    ensures |u.bids| == |d.b| && |u.asks| == |d.a|
    ensures forall i :: 0 <= i < |u.bids| ==> u.bids[i] == Level(d.b[i].price, d.b[i].quantity, ts, Venue)
    ensures forall i :: 0 <= i < |u.asks| ==> u.asks[i] == Level(d.a[i].price, d.a[i].quantity, ts, Venue)
  {
    Update(d.s, Venue, ts, lastUpdateId + 1, d.u, LevelsOf(d.b, ts, Venue), LevelsOf(d.a, ts, Venue))
  }

  class BybitClient {
    const symbol: string
    const depth: int
    var ws: Option<ReadyState>
    var isConnecting: bool
    var reconnectAttempts: nat
    var lastUpdateId: int
    var snapshotFetched: bool
    /** Everything the client has done to the outside world, oldest first. */
    var effects: seq<Effect>

    ghost predicate Valid()
      reads this
    {
      reconnectAttempts <= MaxReconnectAttempts
    }

    constructor (symbol: string, depth: int)
      ensures Valid()
      ensures this.symbol == NormalizeSymbol(symbol) && this.depth == depth
      ensures ws == None && !isConnecting && reconnectAttempts == 0
      ensures lastUpdateId == 0 && !snapshotFetched && effects == []
    {
      this.symbol := NormalizeSymbol(symbol);
      this.depth := depth;
      ws := None;
      isConnecting := false;
      reconnectAttempts := 0;
      lastUpdateId := 0;
      snapshotFetched := false;
      effects := [];
    }

    /** `connect`: a no-op while a connection is under way or open. */
    method Connect()
      modifies this
      ensures reconnectAttempts == old(reconnectAttempts)
      ensures lastUpdateId == old(lastUpdateId) && snapshotFetched == old(snapshotFetched)
      ensures old(isConnecting) || IsOpen(old(ws)) ==>
                ws == old(ws) && isConnecting == old(isConnecting) && effects == old(effects)
      ensures !old(isConnecting) && !IsOpen(old(ws)) ==>
                ws == Some(Connecting) && isConnecting && effects == old(effects) + [OpenSocket(BaseUrl)]
    {
      if isConnecting || IsOpen(ws) {
        return;
      }
      isConnecting := true;
      ws := Some(Connecting);
      effects := effects + [OpenSocket(BaseUrl)];
    }

    /** The socket's open event: attempts reset, subscribe, connected. */
    method OnOpen()
      modifies this
      ensures ws == (if old(ws).Some? then Some(Open) else None)
      ensures !isConnecting && reconnectAttempts == 0
      ensures lastUpdateId == old(lastUpdateId) && snapshotFetched == old(snapshotFetched)
      ensures effects == old(effects)
                + (if old(ws).Some? then [Send(SubscribeFrame(depth, symbol))] else [])
                + [EmitConnected]
      ensures Valid()
    {
      if ws.Some? {
        ws := Some(Open);
      }
      isConnecting := false;
      reconnectAttempts := 0;
      if IsOpen(ws) {
        effects := effects + [Send(SubscribeFrame(depth, symbol))];
      }
      effects := effects + [EmitConnected];
    }

    /** `scheduleReconnect`: one more attempt, after the uncapped delay. */
    method ScheduleReconnectTimer()
      requires reconnectAttempts < MaxReconnectAttempts
      modifies this
      ensures reconnectAttempts == old(reconnectAttempts) + 1
      ensures effects == old(effects) + [ScheduleReconnect(reconnectAttempts, UncappedDelay(reconnectAttempts))]
      ensures ws == old(ws) && isConnecting == old(isConnecting)
      ensures lastUpdateId == old(lastUpdateId) && snapshotFetched == old(snapshotFetched)
      ensures Valid()
    {
      reconnectAttempts := reconnectAttempts + 1;
      var delay := UncappedDelay(reconnectAttempts);
      effects := effects + [ScheduleReconnect(reconnectAttempts, delay)];
    }

    /** The socket's close event. */
    method OnClose(code: int)
      requires Valid()
      modifies this
      ensures Valid()
      ensures ws == (if old(ws).Some? then Some(Closed) else None)
      ensures !isConnecting
      ensures lastUpdateId == old(lastUpdateId) && snapshotFetched == old(snapshotFetched)
      ensures ShouldReconnect(code, old(reconnectAttempts)) ==>
                reconnectAttempts == old(reconnectAttempts) + 1 &&
                effects == old(effects) + [EmitDisconnected, ScheduleReconnect(reconnectAttempts, UncappedDelay(reconnectAttempts))]
      ensures !ShouldReconnect(code, old(reconnectAttempts)) ==>
                reconnectAttempts == old(reconnectAttempts) && effects == old(effects) + [EmitDisconnected]
    {
      if ws.Some? {
        ws := Some(Closed);
      }
      isConnecting := false;
      effects := effects + [EmitDisconnected];
      if ShouldReconnect(code, reconnectAttempts) {
        ScheduleReconnectTimer();
      }
    }

    /** The socket's error event. */
    method OnError()
      modifies this
      ensures !isConnecting && ws == old(ws) && reconnectAttempts == old(reconnectAttempts)
      ensures lastUpdateId == old(lastUpdateId) && snapshotFetched == old(snapshotFetched)
      ensures effects == old(effects) + [EmitError(ConnectionError)]
    {
      isConnecting := false;
      effects := effects + [EmitError(ConnectionError)];
    }

    /** The reconnect timer's callback. */
    method OnTimer()
      requires Valid()
      modifies this
      ensures Valid()
      ensures reconnectAttempts == old(reconnectAttempts)
      ensures lastUpdateId == old(lastUpdateId) && snapshotFetched == old(snapshotFetched)
      ensures old(isConnecting) || IsOpen(old(ws)) ==>
                ws == old(ws) && isConnecting == old(isConnecting) && effects == old(effects)
      ensures !old(isConnecting) && !IsOpen(old(ws)) ==>
                ws == Some(Connecting) && isConnecting && effects == old(effects) + [OpenSocket(BaseUrl)]
    {
      if TimerReconnects(reconnectAttempts) {
        Connect();
      }
    }

    /** `handleSnapshot`: the snapshot carries `u` but the recorded id is
        untouched. */
    method HandleSnapshot(ts: int, d: BybitBook)
      modifies this
      ensures ws == old(ws) && isConnecting == old(isConnecting) && reconnectAttempts == old(reconnectAttempts)
      ensures lastUpdateId == old(lastUpdateId) && snapshotFetched
      ensures effects == old(effects) + [EmitSnapshot(SnapshotOf(ts, d))]
    {
      var snapshot := SnapshotOf(ts, d);
      snapshotFetched := true;
      effects := effects + [EmitSnapshot(snapshot)];
    }

    /** `handleUpdate`: dropped before the first snapshot; otherwise the
        update runs from the recorded id + 1 to `u`, which becomes the
        recorded id. */
    method HandleUpdate(ts: int, d: BybitBook)
      modifies this
      ensures ws == old(ws) && isConnecting == old(isConnecting) && reconnectAttempts == old(reconnectAttempts)
      ensures snapshotFetched == old(snapshotFetched)
      ensures !old(snapshotFetched) ==> lastUpdateId == old(lastUpdateId) && effects == old(effects)
      ensures old(snapshotFetched) ==>
                lastUpdateId == d.u && effects == old(effects) + [EmitUpdate(UpdateOf(ts, old(lastUpdateId), d))]
    {
      if !snapshotFetched {
        return;
      }
      var update := UpdateOf(ts, lastUpdateId, d);
      lastUpdateId := d.u;
      effects := effects + [EmitUpdate(update)];
    }

    /** The socket's message event after parsing: a failed response raises
        an error, a successful one is ignored, topic messages are routed by
        `type`. */
    method OnMessage(m: Message)
      modifies this
      ensures ws == old(ws) && isConnecting == old(isConnecting) && reconnectAttempts == old(reconnectAttempts)
      ensures m.Malformed? ==>
                lastUpdateId == old(lastUpdateId) && snapshotFetched == old(snapshotFetched) &&
                effects == old(effects) + [EmitError(ParseError)]
      ensures m.Response? ==>
                lastUpdateId == old(lastUpdateId) && snapshotFetched == old(snapshotFetched) &&
                effects == old(effects) + (if m.success then [] else [EmitError(ErrorText(m.retMsg))])
      ensures m.Topic? && m.kind == "snapshot" ==>
                snapshotFetched && lastUpdateId == old(lastUpdateId) &&
                effects == old(effects) + [EmitSnapshot(SnapshotOf(m.ts, m.data))]
      ensures m.Topic? && m.kind == "delta" && !old(snapshotFetched) ==>
                lastUpdateId == old(lastUpdateId) && !snapshotFetched && effects == old(effects)
      ensures m.Topic? && m.kind == "delta" && old(snapshotFetched) ==>
                snapshotFetched && lastUpdateId == m.data.u &&
                effects == old(effects) + [EmitUpdate(UpdateOf(m.ts, old(lastUpdateId), m.data))]
      ensures m.Other? || (m.Topic? && m.kind != "snapshot" && m.kind != "delta") ==>
                unchanged(this)
    {
      match m
      case Malformed =>
        effects := effects + [EmitError(ParseError)];
      case Response(success, retMsg) =>
        if !success {
          effects := effects + [EmitError(ErrorText(retMsg))];
        }
      case Topic(_, kind, ts, data) =>
        if kind == "snapshot" {
          HandleSnapshot(ts, data);
        } else if kind == "delta" {
          HandleUpdate(ts, data);
        }
      case Other =>
    }

    /** `disconnect`: a normal close of any socket; id, snapshot flag and
        attempts reset. */
    method Disconnect()
      modifies this
      ensures ws == None && isConnecting == old(isConnecting)
      ensures !snapshotFetched && lastUpdateId == 0 && reconnectAttempts == 0
      ensures effects == old(effects) + (if old(ws).Some? then [CloseSocket(NormalClosure, "Manual disconnect")] else [])
      ensures Valid()
    {
      if ws.Some? {
        effects := effects + [CloseSocket(NormalClosure, "Manual disconnect")];
        ws := None;
      }
      snapshotFetched := false;
      lastUpdateId := 0;
      reconnectAttempts := 0;
    }
  }
}
