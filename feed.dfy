/** What the venue clients share: the socket's ready state, the frames
    they send, the effects they have on the world, and the mapping of wire
    rows to order-book levels. */
module Feed {
  import opened Wrappers
  import opened OrderbookTypes

  /** `WebSocket.readyState`. */
  datatype ReadyState = Connecting | Open | Closing | Closed

  /** One `{channel, instId}` argument of an OKX subscribe frame. */
  datatype OkxArg = OkxArg(channel: string, instId: string)

  /** The subscribe frames, as the JSON objects the clients stringify. */
  datatype Frame =
    | JsonRpcSubscribe(jsonrpc: string, rpcMethod: string, id: int, channels: seq<string>)
    | OkxSubscribe(op: string, okxArgs: seq<OkxArg>)
    | BybitSubscribe(op: string, topics: seq<string>)

  /** What a client does to the outside world: the sockets it opens and
      closes, the frames it sends, the timers it sets, the callbacks it
      invokes and the console warning about a missed Deribit change. */
  datatype Effect =
    | OpenSocket(url: string)
    | Send(frame: Frame)
    | CloseSocket(code: int, reason: string)
    | ScheduleReconnect(attempt: nat, delay: nat)
    | EmitSnapshot(snapshot: Snapshot)
    | EmitUpdate(update: Update)
    | EmitConnected
    | EmitDisconnected
    | EmitError(message: string)
    | WarnMissedUpdate(expected: int, got: int)

  /** The error every client reports when a message cannot be parsed or
      lacks a field its handler reads. */
  const ParseError: string := "Error parsing WebSocket message"
  /** The error every client reports from the socket's error event. */
  const ConnectionError: string := "WebSocket connection error"

  /** A `[price, quantity, ...]` row, its decimal strings already parsed. */
  datatype PriceQty = PriceQty(price: real, quantity: real)

  /** `rows.map(([price, quantity]) => ({price, quantity, timestamp, venue}))`. */
  function LevelsOf(rows: seq<PriceQty>, timestamp: int, venue: string): (r: seq<Level>)
    ensures |r| == |rows|
    ensures forall i :: 0 <= i < |r| ==>
              r[i] == Level(rows[i].price, rows[i].quantity, timestamp, venue)
  {
    if rows == [] then []
    else [Level(rows[0].price, rows[0].quantity, timestamp, venue)] + LevelsOf(rows[1..], timestamp, venue)
  }

  /** A socket is open exactly when it exists and its state is OPEN. */
  predicate IsOpen(ws: Option<ReadyState>) {
    ws == Some(Open)
  }

  /** The delays of the reconnects scheduled in `effects`, in order. */
  function ScheduledDelays(effects: seq<Effect>): (r: seq<nat>)
    ensures |r| <= |effects|
  {
    if effects == [] then []
    else
      var init := ScheduledDelays(effects[..|effects| - 1]);
      match effects[|effects| - 1]
      case ScheduleReconnect(_, delay) => init + [delay]
      case _ => init
  }

  lemma {:induction false} ScheduledDelaysAppend(a: seq<Effect>, b: seq<Effect>)
    ensures ScheduledDelays(a + b) == ScheduledDelays(a) + ScheduledDelays(b)
    decreases |b|
  {
    if b == [] {
      assert a + b == a;
    } else {
      ScheduledDelaysAppend(a, b[..|b| - 1]);
      assert (a + b)[..|a + b| - 1] == a + b[..|b| - 1];
    }
  }

  /** A failed connection followed by its retry adds exactly the retry's
      delay to the schedule. */
  lemma RetryDelays(before: seq<Effect>, attempt: nat, delay: nat, url: string)
    ensures ScheduledDelays(before + [EmitDisconnected, ScheduleReconnect(attempt, delay), OpenSocket(url)])
            == ScheduledDelays(before) + [delay]
  {
    var tail := [EmitDisconnected, ScheduleReconnect(attempt, delay), OpenSocket(url)];
    ScheduledDelaysAppend(before, tail);
    assert tail[..2][..1] == [EmitDisconnected];
    assert ScheduledDelays(tail[..2][..1]) == [] by {
      assert tail[..2][..1][..0] == [];
    }
    assert tail[..2] == tail[..2][..1] + [ScheduleReconnect(attempt, delay)];
    assert ScheduledDelays(tail) == [delay] by {
      assert tail[..|tail| - 1] == tail[..2];
    }
  }
}
