/** The Binance feed client: the partial book depth stream of one symbol,
    every message of which is a complete top-of-book snapshot. */
module BinanceFeed {
  import opened Wrappers
  import opened OrderbookTypes
  import opened Feed
  import opened Backoff
  import Text

  const BaseUrl: string := "wss://stream.binance.com:9443/ws"
  const Venue: string := "binance"
  const DefaultSymbol: string := "BTCUSDT"
  const DefaultDepth: int := 20
  const DefaultUpdateSpeed: string := "100ms"
  /** The error reported when the socket cannot even be created. */
  const CreateError: string := "Failed to connect to WebSocket"

  /** A parsed depth message. `Malformed` stands for text that is not JSON
      or an object without its `bids`/`asks` arrays. */
  datatype Message =
    | Malformed
    | Depth(lastUpdateId: int, bids: seq<PriceQty>, asks: seq<PriceQty>)

  /** The partial depth stream only offers 5, 10 or 20 levels; any other
      depth falls back to 20. */
  function ValidateDepth(depth: int): (d: int)
    ensures d in {5, 10, 20}
    ensures depth in {5, 10, 20} ==> d == depth
    ensures depth !in {5, 10, 20} ==> d == 20
  {
    if depth == 5 || depth == 10 || depth == 20 then depth else 20
  }

  /** `<lower-cased symbol>@depth<depth>`. */
  function StreamName(symbol: string, depth: int): string {
    Text.Lower(symbol) + "@depth" + Text.IntText(depth)
  }

  function StreamUrl(symbol: string, depth: int): string {
    BaseUrl + "/" + StreamName(symbol, depth)
  }

  /** `handleSnapshotMessage`: each message is a snapshot under the
      client's symbol, carrying the message's `lastUpdateId`; the clock is
      read as `now`. */
  function SnapshotOf(symbol: string, now: int, m: Message): (s: Snapshot)
    requires m.Depth?
    ensures s.symbol == symbol && s.venue == Venue && s.timestamp == now
    ensures s.lastUpdateId == m.lastUpdateId
    ensures |s.bids| == |m.bids| && |s.asks| == |m.asks|
    ensures forall i :: 0 <= i < |s.bids| ==> s.bids[i] == Level(m.bids[i].price, m.bids[i].quantity, now, Venue)
    ensures forall i :: 0 <= i < |s.asks| ==> s.asks[i] == Level(m.asks[i].price, m.asks[i].quantity, now, Venue)
  {
    Snapshot(symbol, Venue, now, m.lastUpdateId, LevelsOf(m.bids, now, Venue), LevelsOf(m.asks, now, Venue))
  }

  class BinanceClient {
    const symbol: string
    const depth: int
    const updateSpeed: string
    var ws: Option<ReadyState>
    var isConnecting: bool
    var reconnectAttempts: nat
    /** Everything the client has done to the outside world, oldest first. */
    var effects: seq<Effect>

    ghost predicate Valid()
      reads this
    {
      reconnectAttempts <= MaxReconnectAttempts && depth in {5, 10, 20}
    }

    /** The symbol is stored upper-cased and the depth validated. */
    constructor (symbol: string, depth: int, updateSpeed: string)
      ensures Valid()
      ensures this.symbol == Text.Upper(symbol) && this.depth == ValidateDepth(depth)
      ensures this.updateSpeed == updateSpeed
      ensures ws == None && !isConnecting && reconnectAttempts == 0 && effects == []
    {
      this.symbol := Text.Upper(symbol);
      this.depth := ValidateDepth(depth);
      this.updateSpeed := updateSpeed;
      ws := None;
      isConnecting := false;
      reconnectAttempts := 0;
      effects := [];
    }

    /** `connect`: a no-op while a connection is under way or open;
        otherwise a socket to the symbol's stream. `creationFails` says
        whether the WebSocket constructor throws, which the client catches
        and reports. */
    method Connect(creationFails: bool)
      modifies this
      ensures reconnectAttempts == old(reconnectAttempts)
      ensures old(isConnecting) || IsOpen(old(ws)) ==>
                ws == old(ws) && isConnecting == old(isConnecting) && effects == old(effects)
      ensures !old(isConnecting) && !IsOpen(old(ws)) && !creationFails ==>
                ws == Some(Connecting) && isConnecting &&
                effects == old(effects) + [OpenSocket(StreamUrl(symbol, depth))]
      ensures !old(isConnecting) && !IsOpen(old(ws)) && creationFails ==>
                ws == old(ws) && !isConnecting && effects == old(effects) + [EmitError(CreateError)]
    {
      if isConnecting || IsOpen(ws) {
        return;
      }
      isConnecting := true;
      if creationFails {
        isConnecting := false;
        effects := effects + [EmitError(CreateError)];
        return;
      }
      ws := Some(Connecting);
      effects := effects + [OpenSocket(StreamUrl(symbol, depth))];
    }

    /** The socket's open event: attempts reset and the connected callback
        fires; the stream needs no subscribe frame. */
    method OnOpen()
      modifies this
      ensures ws == (if old(ws).Some? then Some(Open) else None)
      ensures !isConnecting && reconnectAttempts == 0
      ensures effects == old(effects) + [EmitConnected]
      ensures old(Valid()) ==> Valid()
    {
      if ws.Some? {
        ws := Some(Open);
      }
      isConnecting := false;
      reconnectAttempts := 0;
      effects := effects + [EmitConnected];
    }

    /** `scheduleReconnect`: one more attempt, after the delay capped at 30 s. */
    method ScheduleReconnectTimer()
      requires Valid() && reconnectAttempts < MaxReconnectAttempts
      modifies this
      ensures reconnectAttempts == old(reconnectAttempts) + 1
      ensures effects == old(effects) + [ScheduleReconnect(reconnectAttempts, CappedDelay(reconnectAttempts))]
      ensures ws == old(ws) && isConnecting == old(isConnecting)
      ensures Valid()
    {
      reconnectAttempts := reconnectAttempts + 1;
      var delay := CappedDelay(reconnectAttempts);
      effects := effects + [ScheduleReconnect(reconnectAttempts, delay)];
    }

    /** The socket's close event. */
    method OnClose(code: int)
      requires Valid()
      modifies this
      ensures Valid()
      ensures ws == (if old(ws).Some? then Some(Closed) else None)
      ensures !isConnecting
      ensures ShouldReconnect(code, old(reconnectAttempts)) ==>
                reconnectAttempts == old(reconnectAttempts) + 1 &&
                effects == old(effects) + [EmitDisconnected, ScheduleReconnect(reconnectAttempts, CappedDelay(reconnectAttempts))]
      ensures !ShouldReconnect(code, old(reconnectAttempts)) ==>
                reconnectAttempts == old(reconnectAttempts) && effects == old(effects) + [EmitDisconnected]
    {
      if ws.Some? {
        ws := Some(Closed);
      }
      isConnecting := false;
      effects := effects + [EmitDisconnected];
      if ShouldReconnect(code, reconnectAttempts) {
        ScheduleReconnectTimer();
      }
    }

    /** The socket's error event. */
    method OnError()
      modifies this
      ensures !isConnecting && ws == old(ws) && reconnectAttempts == old(reconnectAttempts)
      ensures effects == old(effects) + [EmitError(ConnectionError)]
    {
      isConnecting := false;
      effects := effects + [EmitError(ConnectionError)];
    }

    /** The reconnect timer's callback. */
    method OnTimer(creationFails: bool)
      requires Valid()
      modifies this
      ensures Valid()
      ensures reconnectAttempts == old(reconnectAttempts)
      ensures old(isConnecting) || IsOpen(old(ws)) ==>
                ws == old(ws) && isConnecting == old(isConnecting) && effects == old(effects)
      ensures !old(isConnecting) && !IsOpen(old(ws)) && !creationFails ==>
                ws == Some(Connecting) && isConnecting &&
                effects == old(effects) + [OpenSocket(StreamUrl(symbol, depth))]
      ensures !old(isConnecting) && !IsOpen(old(ws)) && creationFails ==>
                ws == old(ws) && !isConnecting && effects == old(effects) + [EmitError(CreateError)]
    {
      if TimerReconnects(reconnectAttempts) {
        Connect(creationFails);
      }
    }

    /** The socket's message event: every well-formed message becomes a
        snapshot; the update callback is never used. */
    method OnMessage(m: Message, now: int)
      modifies this
      ensures ws == old(ws) && isConnecting == old(isConnecting) && reconnectAttempts == old(reconnectAttempts)
      ensures m.Malformed? ==> effects == old(effects) + [EmitError(ParseError)]
      ensures m.Depth? ==> effects == old(effects) + [EmitSnapshot(SnapshotOf(symbol, now, m))]
    {
      match m
      case Malformed =>
        effects := effects + [EmitError(ParseError)];
      case Depth(_, _, _) =>
        effects := effects + [EmitSnapshot(SnapshotOf(symbol, now, m))];
    }

    /** `disconnect`: a normal close of any socket, attempts reset, and the
        disconnected callback fires even when there was no socket. */
    method Disconnect()
      modifies this
      ensures ws == None && isConnecting == old(isConnecting) && reconnectAttempts == 0
      ensures effects == old(effects)
                + (if old(ws).Some? then [CloseSocket(NormalClosure, "Manual disconnect")] else [])
                + [EmitDisconnected]
      ensures old(Valid()) ==> Valid()
    {
      if ws.Some? {
        effects := effects + [CloseSocket(NormalClosure, "Manual disconnect")];
        ws := None;
      }
      reconnectAttempts := 0;
      effects := effects + [EmitDisconnected];
    }
  }

  /** One abnormal close followed by its timer: the attempt counter goes up
      by one, the socket is being opened again, and exactly the uncapped
      delay of the new attempt is scheduled. */
  method FailAndRetry(c: BinanceClient, code: int)
    requires c.Valid() && c.reconnectAttempts < MaxReconnectAttempts
    requires code != NormalClosure
    modifies c
    ensures c.Valid() && c.reconnectAttempts == old(c.reconnectAttempts) + 1
    ensures c.ws == Some(Connecting) && c.isConnecting
    ensures ScheduledDelays(c.effects) == old(ScheduledDelays(c.effects)) + [UncappedDelay(c.reconnectAttempts)]
  {
    ghost var before := c.effects;
    var k := c.reconnectAttempts;
    CapNeverBinds(k + 1);
    c.OnClose(code);
    assert c.effects == before + [EmitDisconnected, ScheduleReconnect(k + 1, UncappedDelay(k + 1))];
    c.OnTimer(false);
    assert c.effects == before + [EmitDisconnected, ScheduleReconnect(k + 1, UncappedDelay(k + 1)),
                                  OpenSocket(StreamUrl(c.symbol, c.depth))];
    RetryDelays(before, k + 1, UncappedDelay(k + 1), StreamUrl(c.symbol, c.depth));
  }

  /** The 30 s cap never shows: five abnormal closes in a row wait 1, 2,
      4, 8 and 16 seconds, as with the uncapped clients, and a sixth
      schedules nothing more. */
  method ConsecutiveFailures(symbol: string, depth: int, code: int) returns (delays: seq<nat>, afterSixth: seq<nat>)
    requires code != NormalClosure
    ensures delays == [1000, 2000, 4000, 8000, 16000]
    ensures afterSixth == delays
  {
    var c := new BinanceClient(symbol, depth, DefaultUpdateSpeed);
    c.Connect(false);
    assert ScheduledDelays(c.effects) == [];
    for k := 0 to MaxReconnectAttempts
      invariant c.Valid() && c.reconnectAttempts == k
      invariant c.ws == Some(Connecting) && c.isConnecting
      invariant ScheduledDelays(c.effects) == Schedule(k)
    {
      FailAndRetry(c, code);
      assert Schedule(k + 1) == Schedule(k) + [UncappedDelay(k + 1)];
    }
    delays := ScheduledDelays(c.effects);
    FullSchedule();
    ghost var before := c.effects;
    c.OnClose(code);
    ScheduledDelaysAppend(before, [EmitDisconnected]);
    afterSixth := ScheduledDelays(c.effects);
  }
}
