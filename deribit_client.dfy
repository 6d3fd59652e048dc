/** The Deribit feed client: a JSON-RPC subscription to `book.<symbol>.100ms`
    whose notifications carry a full book ("snapshot") or a change chained to
    the previous one by `prev_change_id`. */
module DeribitFeed {
  import opened Wrappers
  import opened OrderbookTypes
  import opened Feed
  import opened Backoff
  import Text

  const BaseUrl: string := "wss://test.deribit.com/ws/api/v2"
  const Venue: string := "Deribit"

  /** A `[action, price, amount]` wire triple, its decimals parsed. */
  datatype DeribitRow = DeribitRow(action: string, price: real, amount: real)

  /** `params.data` of a book notification. */
  datatype BookData = BookData(
    kind: string,
    timestamp: int,
    instrumentName: string,
    bids: seq<DeribitRow>,
    asks: seq<DeribitRow>,
    changeId: int,
    prevChangeId: int)

  /** A parsed socket message. `Malformed` stands for text that is not JSON
      or an object that lacks a field the handler reads. */
  datatype Message =
    | Malformed
    | Response(success: bool, retMsg: string)
    | Notification(rpcMethod: string, channel: string, data: BookData)

  /** The level mapping reads price and amount from positions 1 and 2 of
      each triple and ignores the action at position 0. */
  function Rows(rows: seq<DeribitRow>): (r: seq<PriceQty>)
    ensures |r| == |rows|
    ensures forall i :: 0 <= i < |r| ==> r[i].price == rows[i].price && r[i].quantity == rows[i].amount
  {
    if rows == [] then [] else [PriceQty(rows[0].price, rows[0].amount)] + Rows(rows[1..])
  }

  /** `handleSnapshot`'s snapshot: identified by the notification's
      `change_id`, every level stamped with its timestamp and the venue. */
  function SnapshotOf(d: BookData): (s: Snapshot)
    ensures s.symbol == d.instrumentName && s.venue == Venue && s.timestamp == d.timestamp
    ensures s.lastUpdateId == d.changeId
    ensures |s.bids| == |d.bids| && |s.asks| == |d.asks|
    ensures forall i :: 0 <= i < |s.bids| ==>
              s.bids[i] == Level(d.bids[i].price, d.bids[i].amount, d.timestamp, Venue)
    ensures forall i :: 0 <= i < |s.asks| ==>
              s.asks[i] == Level(d.asks[i].price, d.asks[i].amount, d.timestamp, Venue)
  {
    Snapshot(d.instrumentName, Venue, d.timestamp, d.changeId,
             LevelsOf(Rows(d.bids), d.timestamp, Venue), LevelsOf(Rows(d.asks), d.timestamp, Venue))
  }

  /** `handleUpdate`'s update: it spans from `prev_change_id` to
      `change_id`, whatever the client expected. */
  function UpdateOf(d: BookData): (u: Update)
    ensures u.symbol == d.instrumentName && u.venue == Venue && u.timestamp == d.timestamp
    ensures u.firstUpdateId == d.prevChangeId && u.finalUpdateId == d.changeId
    ensures |u.bids| == |d.bids| && |u.asks| == |d.asks|
    ensures forall i :: 0 <= i < |u.bids| ==>
              u.bids[i] == Level(d.bids[i].price, d.bids[i].amount, d.timestamp, Venue)
    ensures forall i :: 0 <= i < |u.asks| ==>
              u.asks[i] == Level(d.asks[i].price, d.asks[i].amount, d.timestamp, Venue)
  {
    Update(d.instrumentName, Venue, d.timestamp, d.prevChangeId, d.changeId,
           LevelsOf(Rows(d.bids), d.timestamp, Venue), LevelsOf(Rows(d.asks), d.timestamp, Venue))
  }

  /** The one channel the client subscribes to. */
  function Channel(symbol: string): (c: string)
    ensures Text.StartsWith(c, "book.")
    ensures c == "book." + symbol + ".100ms"
  {
    "book." + symbol + ".100ms"
  }

  function SubscribeFrame(symbol: string): Frame {
    JsonRpcSubscribe("2.0", "public/subscribe", 42, [Channel(symbol)])
  }

  function ErrorText(retMsg: string): string {
    "Deribit WebSocket error: " + retMsg
  }

  class DeribitClient {
    const symbol: string
    const depth: int
    var ws: Option<ReadyState>
    var isConnecting: bool
    var reconnectAttempts: nat
    var lastUpdateId: int
    var snapshotFetched: bool
    /** Everything the client has done to the outside world, oldest first. */
    var effects: seq<Effect>

    /** Reconnects are only scheduled below the limit, so the attempt
        count never exceeds it. */
    ghost predicate Valid()
      reads this
    {
      reconnectAttempts <= MaxReconnectAttempts
    }

    constructor (symbol: string, depth: int)
      ensures Valid()
      ensures this.symbol == symbol && this.depth == depth
      ensures ws == None && !isConnecting && reconnectAttempts == 0
      ensures lastUpdateId == 0 && !snapshotFetched && effects == []
    {
      this.symbol := symbol;
      this.depth := depth;
      ws := None;
      isConnecting := false;
      reconnectAttempts := 0;
      lastUpdateId := 0;
      snapshotFetched := false;
      effects := [];
    }

    /** `connect`: a no-op while a connection is under way or open;
        otherwise a new socket to the fixed endpoint. */
    method Connect()
      modifies this
      ensures reconnectAttempts == old(reconnectAttempts)
      ensures lastUpdateId == old(lastUpdateId) && snapshotFetched == old(snapshotFetched)
      ensures old(isConnecting) || IsOpen(old(ws)) ==>
                ws == old(ws) && isConnecting == old(isConnecting) && effects == old(effects)
      ensures !old(isConnecting) && !IsOpen(old(ws)) ==>
                ws == Some(Connecting) && isConnecting && effects == old(effects) + [OpenSocket(BaseUrl)]
    {
      if isConnecting || IsOpen(ws) {
        return;
      }
      isConnecting := true;
      ws := Some(Connecting);
      effects := effects + [OpenSocket(BaseUrl)];
    }

    /** The socket's open event: the attempt count resets, the subscribe
        frame goes out on the now open socket, and the connected callback
        fires. */
    method OnOpen()
      modifies this
      ensures ws == (if old(ws).Some? then Some(Open) else None)
      ensures !isConnecting && reconnectAttempts == 0
      ensures lastUpdateId == old(lastUpdateId) && snapshotFetched == old(snapshotFetched)
      ensures effects == old(effects)
                + (if old(ws).Some? then [Send(SubscribeFrame(symbol))] else [])
                + [EmitConnected]
      ensures Valid()
    {
      if ws.Some? {
        ws := Some(Open);
      }
      isConnecting := false;
      reconnectAttempts := 0;
      if IsOpen(ws) {
        effects := effects + [Send(SubscribeFrame(symbol))];
      }
      effects := effects + [EmitConnected];
    }

    /** `scheduleReconnect`: one more attempt, after the uncapped delay. */
    method ScheduleReconnectTimer()
      requires reconnectAttempts < MaxReconnectAttempts
      modifies this
      ensures reconnectAttempts == old(reconnectAttempts) + 1
      ensures effects == old(effects) + [ScheduleReconnect(reconnectAttempts, UncappedDelay(reconnectAttempts))]
      ensures ws == old(ws) && isConnecting == old(isConnecting)
      ensures lastUpdateId == old(lastUpdateId) && snapshotFetched == old(snapshotFetched)
      ensures Valid()
    {
      reconnectAttempts := reconnectAttempts + 1;
      var delay := UncappedDelay(reconnectAttempts);
      effects := effects + [ScheduleReconnect(reconnectAttempts, delay)];
    }

    /** The socket's close event: the disconnected callback fires, and a
        reconnect is scheduled unless the close was normal or the attempts
        are used up. */
    method OnClose(code: int)
      requires Valid()
      modifies this
      ensures Valid()
      ensures ws == (if old(ws).Some? then Some(Closed) else None)
      ensures !isConnecting
      ensures lastUpdateId == old(lastUpdateId) && snapshotFetched == old(snapshotFetched)
      ensures ShouldReconnect(code, old(reconnectAttempts)) ==>
                reconnectAttempts == old(reconnectAttempts) + 1 &&
                effects == old(effects) + [EmitDisconnected, ScheduleReconnect(reconnectAttempts, UncappedDelay(reconnectAttempts))]
      ensures !ShouldReconnect(code, old(reconnectAttempts)) ==>
                reconnectAttempts == old(reconnectAttempts) && effects == old(effects) + [EmitDisconnected]
    {
      if ws.Some? {
        ws := Some(Closed);
      }
      isConnecting := false;
      effects := effects + [EmitDisconnected];
      if ShouldReconnect(code, reconnectAttempts) {
        ScheduleReconnectTimer();
      }
    }

    /** The socket's error event. */
    method OnError()
      modifies this
      ensures !isConnecting && ws == old(ws) && reconnectAttempts == old(reconnectAttempts)
      ensures lastUpdateId == old(lastUpdateId) && snapshotFetched == old(snapshotFetched)
      ensures effects == old(effects) + [EmitError(ConnectionError)]
    {
      isConnecting := false;
      effects := effects + [EmitError(ConnectionError)];
    }

    /** The reconnect timer's callback: connect again unless the attempts
        are exhausted, which a valid client never is. */
    method OnTimer()
      requires Valid()
      modifies this
      ensures Valid()
      ensures reconnectAttempts == old(reconnectAttempts)
      ensures lastUpdateId == old(lastUpdateId) && snapshotFetched == old(snapshotFetched)
      ensures old(isConnecting) || IsOpen(old(ws)) ==>
                ws == old(ws) && isConnecting == old(isConnecting) && effects == old(effects)
      ensures !old(isConnecting) && !IsOpen(old(ws)) ==>
                ws == Some(Connecting) && isConnecting && effects == old(effects) + [OpenSocket(BaseUrl)]
    {
      if TimerReconnects(reconnectAttempts) {
        Connect();
      }
    }

    /** `handleSnapshot`: the book is emitted and the change chain restarts
        from its `change_id`. */
    method HandleSnapshot(d: BookData)
      modifies this
      ensures snapshotFetched && lastUpdateId == d.changeId
      ensures ws == old(ws) && isConnecting == old(isConnecting) && reconnectAttempts == old(reconnectAttempts)
      ensures effects == old(effects) + [EmitSnapshot(SnapshotOf(d))]
    {
      var snapshot := SnapshotOf(d);
      snapshotFetched := true;
      lastUpdateId := d.changeId;
      effects := effects + [EmitSnapshot(snapshot)];
    }

    /** `handleUpdate`: dropped before the first snapshot; otherwise a gap in
        the chain is only warned about, the update is emitted anyway and the
        chain moves on to its `change_id`. */
    method HandleUpdate(d: BookData)
      modifies this
      ensures ws == old(ws) && isConnecting == old(isConnecting) && reconnectAttempts == old(reconnectAttempts)
      ensures snapshotFetched == old(snapshotFetched)
      ensures !old(snapshotFetched) ==> lastUpdateId == old(lastUpdateId) && effects == old(effects)
      ensures old(snapshotFetched) ==>
                lastUpdateId == d.changeId &&
                effects == old(effects)
                  + (if d.prevChangeId != old(lastUpdateId) then [WarnMissedUpdate(old(lastUpdateId), d.prevChangeId)] else [])
                  + [EmitUpdate(UpdateOf(d))]
    {
      if !snapshotFetched {
        return;
      }
      if d.prevChangeId != lastUpdateId {
        effects := effects + [WarnMissedUpdate(lastUpdateId, d.prevChangeId)];
      }
      var update := UpdateOf(d);
      lastUpdateId := d.changeId;
      effects := effects + [EmitUpdate(update)];
    }

    /** The socket's message event after parsing: a failed response raises
        an error, a book notification is routed by its type, anything else
        is ignored. */
    method OnMessage(m: Message)
      modifies this
      ensures ws == old(ws) && isConnecting == old(isConnecting) && reconnectAttempts == old(reconnectAttempts)
      ensures m.Malformed? ==> effects == old(effects) + [EmitError(ParseError)]
      ensures m.Response? ==>
                lastUpdateId == old(lastUpdateId) && snapshotFetched == old(snapshotFetched) &&
                effects == old(effects) + (if m.success then [] else [EmitError(ErrorText(m.retMsg))])
      ensures m.Notification? && m.rpcMethod == "subscription" && Text.StartsWith(m.channel, "book.") &&
              m.data.kind == "snapshot" ==>
                snapshotFetched && lastUpdateId == m.data.changeId &&
                effects == old(effects) + [EmitSnapshot(SnapshotOf(m.data))]
      ensures m.Notification? && m.rpcMethod == "subscription" && Text.StartsWith(m.channel, "book.") &&
              m.data.kind == "change" ==>
                snapshotFetched == old(snapshotFetched) &&
                (!old(snapshotFetched) ==> lastUpdateId == old(lastUpdateId) && effects == old(effects)) &&
                (old(snapshotFetched) ==>
                   lastUpdateId == m.data.changeId &&
                   effects == old(effects)
                     + (if m.data.prevChangeId != old(lastUpdateId)
                        then [WarnMissedUpdate(old(lastUpdateId), m.data.prevChangeId)] else [])
                     + [EmitUpdate(UpdateOf(m.data))])
      ensures !(m.Notification? && m.rpcMethod == "subscription" && Text.StartsWith(m.channel, "book.") &&
                m.data.kind in {"snapshot", "change"}) ==>
                lastUpdateId == old(lastUpdateId) && snapshotFetched == old(snapshotFetched)
      ensures !m.Malformed? && !m.Response? &&
              !(m.rpcMethod == "subscription" && Text.StartsWith(m.channel, "book.") &&
                m.data.kind in {"snapshot", "change"}) ==>
                effects == old(effects)
    {
      match m
      case Malformed =>
        effects := effects + [EmitError(ParseError)];
      case Response(success, retMsg) =>
        if !success {
          effects := effects + [EmitError(ErrorText(retMsg))];
        }
      case Notification(rpcMethod, channel, data) =>
        if rpcMethod == "subscription" && Text.StartsWith(channel, "book.") {
          if data.kind == "snapshot" {
            HandleSnapshot(data);
          } else if data.kind == "change" {
            HandleUpdate(data);
          }
        }
    }

    /** `disconnect`: a normal close of any socket, and the chain and the
        attempt count reset; safe without a socket. */
    method Disconnect()
      modifies this
      ensures ws == None && isConnecting == old(isConnecting)
      ensures !snapshotFetched && lastUpdateId == 0 && reconnectAttempts == 0
      ensures effects == old(effects) + (if old(ws).Some? then [CloseSocket(NormalClosure, "Manual disconnect")] else [])
      ensures Valid()
    {
      if ws.Some? {
        effects := effects + [CloseSocket(NormalClosure, "Manual disconnect")];
        ws := None;
      }
      snapshotFetched := false;
      lastUpdateId := 0;
      reconnectAttempts := 0;
    }
  }

  /** Five connections in a row that close abnormally before opening: the
      reconnects wait 1, 2, 4, 8 and 16 seconds, and a sixth abnormal close
      schedules nothing more. */
  method ConsecutiveFailures(symbol: string, code: int) returns (delays: seq<nat>, afterSixth: seq<nat>)
    requires code != NormalClosure
    ensures delays == [1000, 2000, 4000, 8000, 16000]
    ensures afterSixth == delays
  {
    var c := new DeribitClient(symbol, 50);
    c.Connect();
    assert ScheduledDelays(c.effects) == [];
    for k := 0 to MaxReconnectAttempts
      invariant c.Valid() && c.reconnectAttempts == k
      invariant c.ws == Some(Connecting) && c.isConnecting
      invariant ScheduledDelays(c.effects) == Schedule(k)
    {
      ghost var before := c.effects;
      c.OnClose(code);
      assert c.effects == before + [EmitDisconnected, ScheduleReconnect(k + 1, UncappedDelay(k + 1))];
      c.OnTimer();
      assert c.effects == before + [EmitDisconnected, ScheduleReconnect(k + 1, UncappedDelay(k + 1)), OpenSocket(BaseUrl)];
      RetryDelays(before, k + 1, UncappedDelay(k + 1), BaseUrl);
      assert Schedule(k + 1) == Schedule(k) + [UncappedDelay(k + 1)];
    }
    delays := ScheduledDelays(c.effects);
    FullSchedule();
    ghost var before := c.effects;
    c.OnClose(code);
    ScheduledDelaysAppend(before, [EmitDisconnected]);
    afterSixth := ScheduledDelays(c.effects);
  }
}
