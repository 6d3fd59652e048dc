/** The OKX feed client: a subscription to the `books` channel of one
    instrument, whose pushes carry a full book ("snapshot") or changes
    ("update") identified only by a checksum. */
module OkxFeed {
  import opened Wrappers
  import opened OrderbookTypes
  import opened Feed
  import opened Backoff
  import Text

  const BaseUrl: string := "wss://ws.okx.com:8443/ws/v5/public"
  const Venue: string := "okx"
  const DefaultSymbol: string := "BTC-USDT"

  /** One element of a push's `data` array, decimals and `ts` parsed. */
  datatype OkxBook = OkxBook(asks: seq<PriceQty>, bids: seq<PriceQty>, ts: int, checksum: int)

  /** A parsed socket message: an `event` reply, a push with an `action`,
      or anything else. `Malformed` stands for text that is not JSON. */
  datatype Message =
    | Malformed
    | Event(event: string, msg: string, code: string)
    | Push(action: string, data: seq<OkxBook>)
    | Other

  /** The constructor's normalisation of the instrument id. */
  function NormalizeSymbol(symbol: string): (r: string)
    ensures |r| == |symbol| && Text.IsUpperCase(r)
    ensures forall i :: 0 <= i < |r| ==> r[i] == Text.UpperChar(symbol[i])
  {
    Text.UpperIsUpperCase(symbol);
    Text.Upper(symbol)
  }

  function SubscribeFrame(symbol: string): Frame {
    OkxSubscribe("subscribe", [OkxArg("books", symbol)])
  }

  function ErrorText(msg: string): string {
    "OKX WebSocket error: " + msg
  }

  /** `handleSnapshot`'s snapshot: named by the client's symbol and
      identified by the push's checksum. */
  function SnapshotOf(symbol: string, b: OkxBook): (s: Snapshot)
    ensures s.symbol == symbol && s.venue == Venue && s.timestamp == b.ts
    ensures s.lastUpdateId == b.checksum
    ensures |s.bids| == |b.bids| && |s.asks| == |b.asks|
    ensures forall i :: 0 <= i < |s.bids| ==> s.bids[i] == Level(b.bids[i].price, b.bids[i].quantity, b.ts, Venue)
    ensures forall i :: 0 <= i < |s.asks| ==> s.asks[i] == Level(b.asks[i].price, b.asks[i].quantity, b.ts, Venue)
  {
    Snapshot(symbol, Venue, b.ts, b.checksum, LevelsOf(b.bids, b.ts, Venue), LevelsOf(b.asks, b.ts, Venue))
  }

  /** `handleUpdate`'s update: it claims to follow the last id the client
      recorded and ends at the push's checksum. */
  function UpdateOf(symbol: string, lastUpdateId: int, b: OkxBook): (u: Update)
    ensures u.symbol == symbol && u.venue == Venue && u.timestamp == b.ts
    ensures u.firstUpdateId == lastUpdateId + 1 && u.finalUpdateId == b.checksum
    ensures |u.bids| == |b.bids| && |u.asks| == |b.asks|
    ensures forall i :: 0 <= i < |u.bids| ==> u.bids[i] == Level(b.bids[i].price, b.bids[i].quantity, b.ts, Venue)
    ensures forall i :: 0 <= i < |u.asks| ==> u.asks[i] == Level(b.asks[i].price, b.asks[i].quantity, b.ts, Venue)
  {
    Update(symbol, Venue, b.ts, lastUpdateId + 1, b.checksum, LevelsOf(b.bids, b.ts, Venue), LevelsOf(b.asks, b.ts, Venue))
  }

  class OkxClient {
    const symbol: string
    var ws: Option<ReadyState>
    var isConnecting: bool
    var reconnectAttempts: nat
    var lastUpdateId: int
    var snapshotFetched: bool
    /** Everything the client has done to the outside world, oldest first. */
    var effects: seq<Effect>

    ghost predicate Valid()
      reads this
    {
      reconnectAttempts <= MaxReconnectAttempts
    }

    /** The instrument id is stored upper-cased. */
    constructor (symbol: string)
      ensures Valid()
      ensures this.symbol == NormalizeSymbol(symbol)
      ensures ws == None && !isConnecting && reconnectAttempts == 0
      ensures lastUpdateId == 0 && !snapshotFetched && effects == []
    {
      this.symbol := NormalizeSymbol(symbol);
      ws := None;
      isConnecting := false;
      reconnectAttempts := 0;
      lastUpdateId := 0;
      snapshotFetched := false;
      effects := [];
    }

    /** `connect`: a no-op while a connection is under way or open. */
    method Connect()
      modifies this
      ensures reconnectAttempts == old(reconnectAttempts)
      ensures lastUpdateId == old(lastUpdateId) && snapshotFetched == old(snapshotFetched)
      ensures old(isConnecting) || IsOpen(old(ws)) ==>
                ws == old(ws) && isConnecting == old(isConnecting) && effects == old(effects)
      ensures !old(isConnecting) && !IsOpen(old(ws)) ==>
                ws == Some(Connecting) && isConnecting && effects == old(effects) + [OpenSocket(BaseUrl)]
    {
      if isConnecting || IsOpen(ws) {
        return;
      }
      isConnecting := true;
      ws := Some(Connecting);
      effects := effects + [OpenSocket(BaseUrl)];
    }

    /** The socket's open event: attempts reset, subscribe, connected. */
    method OnOpen()
      modifies this
      ensures ws == (if old(ws).Some? then Some(Open) else None)
      ensures !isConnecting && reconnectAttempts == 0
      ensures lastUpdateId == old(lastUpdateId) && snapshotFetched == old(snapshotFetched)
      ensures effects == old(effects)
                + (if old(ws).Some? then [Send(SubscribeFrame(symbol))] else [])
                + [EmitConnected]
      ensures Valid()
    {
      if ws.Some? {
        ws := Some(Open);
      }
      isConnecting := false;
      reconnectAttempts := 0;
      if IsOpen(ws) {
        effects := effects + [Send(SubscribeFrame(symbol))];
      }
      effects := effects + [EmitConnected];
    }

    /** `scheduleReconnect`: one more attempt, after the uncapped delay. */
    method ScheduleReconnectTimer()
      requires reconnectAttempts < MaxReconnectAttempts
      modifies this
      ensures reconnectAttempts == old(reconnectAttempts) + 1
      ensures effects == old(effects) + [ScheduleReconnect(reconnectAttempts, UncappedDelay(reconnectAttempts))]
      ensures ws == old(ws) && isConnecting == old(isConnecting)
      ensures lastUpdateId == old(lastUpdateId) && snapshotFetched == old(snapshotFetched)
      ensures Valid()
    {
      reconnectAttempts := reconnectAttempts + 1;
      var delay := UncappedDelay(reconnectAttempts);
      effects := effects + [ScheduleReconnect(reconnectAttempts, delay)];
    }

    /** The socket's close event. */
    method OnClose(code: int)
      requires Valid()
      modifies this
      ensures Valid()
      ensures ws == (if old(ws).Some? then Some(Closed) else None)
      ensures !isConnecting
      ensures lastUpdateId == old(lastUpdateId) && snapshotFetched == old(snapshotFetched)
      ensures ShouldReconnect(code, old(reconnectAttempts)) ==>
                reconnectAttempts == old(reconnectAttempts) + 1 &&
                effects == old(effects) + [EmitDisconnected, ScheduleReconnect(reconnectAttempts, UncappedDelay(reconnectAttempts))]
      ensures !ShouldReconnect(code, old(reconnectAttempts)) ==>
                reconnectAttempts == old(reconnectAttempts) && effects == old(effects) + [EmitDisconnected]
    {
      if ws.Some? {
        ws := Some(Closed);
      }
      isConnecting := false;
      effects := effects + [EmitDisconnected];
      if ShouldReconnect(code, reconnectAttempts) {
        ScheduleReconnectTimer();
      }
    }

    /** The socket's error event. */
    method OnError()
      modifies this
      ensures !isConnecting && ws == old(ws) && reconnectAttempts == old(reconnectAttempts)
      ensures lastUpdateId == old(lastUpdateId) && snapshotFetched == old(snapshotFetched)
      ensures effects == old(effects) + [EmitError(ConnectionError)]
    {
      isConnecting := false;
      effects := effects + [EmitError(ConnectionError)];
    }

    /** The reconnect timer's callback. */
    method OnTimer()
      requires Valid()
      modifies this
      ensures Valid()
      ensures reconnectAttempts == old(reconnectAttempts)
      ensures lastUpdateId == old(lastUpdateId) && snapshotFetched == old(snapshotFetched)
      ensures old(isConnecting) || IsOpen(old(ws)) ==>
                ws == old(ws) && isConnecting == old(isConnecting) && effects == old(effects)
      ensures !old(isConnecting) && !IsOpen(old(ws)) ==>
                ws == Some(Connecting) && isConnecting && effects == old(effects) + [OpenSocket(BaseUrl)]
    {
      if TimerReconnects(reconnectAttempts) {
        Connect();
      }
    }

    /** `handleSnapshot`: only `data[0]` is read (an empty array makes the
        handler throw, which the message handler reports as a parse error);
        the snapshot carries the checksum but the recorded id is untouched. */
    method HandleSnapshot(data: seq<OkxBook>)
      modifies this
      ensures ws == old(ws) && isConnecting == old(isConnecting) && reconnectAttempts == old(reconnectAttempts)
      ensures lastUpdateId == old(lastUpdateId)
      ensures data == [] ==> snapshotFetched == old(snapshotFetched) && effects == old(effects) + [EmitError(ParseError)]
      ensures data != [] ==> snapshotFetched && effects == old(effects) + [EmitSnapshot(SnapshotOf(symbol, data[0]))]
    {
      if data == [] {
        effects := effects + [EmitError(ParseError)];
        return;
      }
      var snapshot := SnapshotOf(symbol, data[0]);
      snapshotFetched := true;
      effects := effects + [EmitSnapshot(snapshot)];
    }

    /** `handleUpdate`: dropped before the first snapshot; otherwise the
        update runs from the recorded id + 1 to the checksum, which becomes
        the recorded id. */
    method HandleUpdate(data: seq<OkxBook>)
      modifies this
      ensures ws == old(ws) && isConnecting == old(isConnecting) && reconnectAttempts == old(reconnectAttempts)
      ensures snapshotFetched == old(snapshotFetched)
      ensures !old(snapshotFetched) ==> lastUpdateId == old(lastUpdateId) && effects == old(effects)
      ensures old(snapshotFetched) && data == [] ==>
                lastUpdateId == old(lastUpdateId) && effects == old(effects) + [EmitError(ParseError)]
      ensures old(snapshotFetched) && data != [] ==>
                lastUpdateId == data[0].checksum &&
                effects == old(effects) + [EmitUpdate(UpdateOf(symbol, old(lastUpdateId), data[0]))]
    {
      if !snapshotFetched {
        return;
      }
      if data == [] {
        effects := effects + [EmitError(ParseError)];
        return;
      }
      var update := UpdateOf(symbol, lastUpdateId, data[0]);
      lastUpdateId := data[0].checksum;
      effects := effects + [EmitUpdate(update)];
    }

    /** The socket's message event after parsing: an error event raises an
        error, other events are ignored, pushes are routed by `action`. */
    method OnMessage(m: Message)
      modifies this
      ensures ws == old(ws) && isConnecting == old(isConnecting) && reconnectAttempts == old(reconnectAttempts)
      ensures m.Malformed? ==>
                lastUpdateId == old(lastUpdateId) && snapshotFetched == old(snapshotFetched) &&
                effects == old(effects) + [EmitError(ParseError)]
      ensures m.Event? ==>
                lastUpdateId == old(lastUpdateId) && snapshotFetched == old(snapshotFetched) &&
                effects == old(effects) + (if m.event == "error" then [EmitError(ErrorText(m.msg))] else [])
      ensures m.Push? && m.action == "snapshot" && m.data != [] ==>
                snapshotFetched && lastUpdateId == old(lastUpdateId) &&
                effects == old(effects) + [EmitSnapshot(SnapshotOf(symbol, m.data[0]))]
      ensures m.Push? && m.action == "snapshot" && m.data == [] ==>
                snapshotFetched == old(snapshotFetched) && lastUpdateId == old(lastUpdateId) &&
                effects == old(effects) + [EmitError(ParseError)]
      ensures m.Push? && m.action == "update" && !old(snapshotFetched) ==>
                !snapshotFetched && lastUpdateId == old(lastUpdateId) && effects == old(effects)
      ensures m.Push? && m.action == "update" && old(snapshotFetched) && m.data == [] ==>
                snapshotFetched && lastUpdateId == old(lastUpdateId) &&
                effects == old(effects) + [EmitError(ParseError)]
      ensures m.Push? && m.action == "update" && old(snapshotFetched) && m.data != [] ==>
                snapshotFetched && lastUpdateId == m.data[0].checksum &&
                effects == old(effects) + [EmitUpdate(UpdateOf(symbol, old(lastUpdateId), m.data[0]))]
      ensures m.Other? || (m.Push? && m.action != "snapshot" && m.action != "update") ==>
                unchanged(this)
    {
      match m
      case Malformed =>
        effects := effects + [EmitError(ParseError)];
      case Event(event, msg, _) =>
        if event == "error" {
          effects := effects + [EmitError(ErrorText(msg))];
        }
      case Push(action, data) =>
        if action == "snapshot" {
          HandleSnapshot(data);
        } else if action == "update" {
          HandleUpdate(data);
        }
      case Other =>
    }

    /** `disconnect`: a normal close of any socket; id, snapshot flag and
        attempts reset. */
    method Disconnect()
      modifies this
      ensures ws == None && isConnecting == old(isConnecting)
      ensures !snapshotFetched && lastUpdateId == 0 && reconnectAttempts == 0
      ensures effects == old(effects) + (if old(ws).Some? then [CloseSocket(NormalClosure, "Manual disconnect")] else [])
      ensures Valid()
    {
      if ws.Some? {
        effects := effects + [CloseSocket(NormalClosure, "Manual disconnect")];
        ws := None;
      }
      snapshotFetched := false;
      lastUpdateId := 0;
      reconnectAttempts := 0;
    }
  }
}
