/** `WebSocketManager`: the venue-to-client registry, and the shared
    instance the application populates at start-up. */
module Registry {
  import opened Wrappers
  import opened Seqs
  import opened Feed
  import opened Backoff
  import Text
  import BinanceFeed
  import OkxFeed
  import BybitFeed
  import DeribitFeed

  /** A registered client of any venue. */
  datatype Client =
    | Binance(binance: BinanceFeed.BinanceClient)
    | Okx(okx: OkxFeed.OkxClient)
    | Bybit(bybit: BybitFeed.BybitClient)
    | Deribit(deribit: DeribitFeed.DeribitClient)

  /** The object behind a registered client. */
  function Target(c: Client): object {
    match c
    case Binance(b) => b
    case Okx(o) => o
    case Bybit(y) => y
    case Deribit(d) => d
  }

  class WebSocketManager {
    var clients: map<string, Client>
    /** The insertion order of the map's keys, which `forEach` follows. */
    var order: seq<string>

    ghost predicate Valid()
      reads this
    {
      Distinct(order) && forall v :: v in order <==> v in clients
    }

    /** The client objects `connectAll` and `disconnectAll` act on. */
    ghost function Targets(): set<object>
      reads this
    {
      set v | v in clients :: Target(clients[v])
    }

    constructor ()
      ensures Valid() && clients == map[] && order == []
    {
      clients := map[];
      order := [];
    }

    /** `getClient`: the client registered under `venue`, if any. */
    function GetClient(venue: string): (r: Option<Client>)
      reads this
      ensures r.Some? <==> venue in clients
      ensures r.Some? ==> r.value == clients[venue]
    {
      if venue in clients then Some(clients[venue]) else None
    }

    /** `addClient`: registers `client` under `venue`, replacing an earlier
        client of that venue in its place; every other venue keeps its
        client. */
    method AddClient(venue: string, client: Client)
      requires Valid()
      modifies this
      ensures Valid()
      ensures GetClient(venue) == Some(client)
      ensures forall v :: v != venue ==> GetClient(v) == old(GetClient(v))
      ensures clients == old(clients)[venue := client]
      ensures order == (if venue in old(clients) then old(order) else old(order) + [venue])
    {
      if venue !in clients {
        assert venue !in order;
        order := order + [venue];
      }
      clients := clients[venue := client];
    }

    /** Each registered client object sits under one venue only, so that
        `forEach` reaches it once. */
    ghost predicate OneVenuePerClient()
      reads this
    {
      forall v, w :: v in clients && w in clients && Target(clients[v]) == Target(clients[w]) ==> v == w
    }

    /** The registered clients in registration order, the order in which
        `forEach` visits them. */
    function InOrder(): (r: seq<Client>)
      requires Valid()
      reads this
      ensures |r| == |order|
      ensures forall j :: 0 <= j < |order| ==> r[j] == clients[order[j]]
    {
      seq(|order|, j requires 0 <= j < |order| && order[j] in clients reads this => clients[order[j]])
    }

    /** `connectAll`: `connect` on every registered client, once per venue,
        in registration order. `creationFails` is passed to the Binance
        client, whose socket creation may throw. Each client ends in the
        state its own `connect` gives from the state it had before. */
    method ConnectAll(creationFails: bool) returns (visited: seq<string>)
      requires Valid()
      modifies Targets()
      ensures visited == old(order)
      ensures forall v :: v in old(clients) <==> v in visited
      ensures Distinct(visited)
      ensures old(OneVenuePerClient()) ==>
                forall v :: v in old(clients) ==>
                  StatusOf(old(clients)[v]) == AfterConnect(old(clients)[v], old(StatusOf(clients[v])), creationFails)
    {
      visited := order;
      var cs := InOrder();
      InOrderTargets();
      InOrderApart();
      ConnectEach(cs, creationFails);
      forall v | v in old(clients) && old(OneVenuePerClient())
        ensures StatusOf(old(clients)[v]) == AfterConnect(old(clients)[v], old(StatusOf(clients[v])), creationFails)
      {
        var j := IndexIn(order, v);
      }
    }

    /** `disconnectAll`: `disconnect` on every registered client, once per
        venue, in registration order. Every client ends without a socket
        and with its attempts (and its book id and snapshot flag) reset;
        each one's state is what its own `disconnect` gives from the state
        it had before. */
    method DisconnectAll() returns (visited: seq<string>)
      requires Valid()
      modifies Targets()
      ensures visited == old(order)
      ensures forall v :: v in old(clients) <==> v in visited
      ensures Distinct(visited)
      ensures forall v :: v in old(clients) ==> Disconnected(StatusOf(old(clients)[v]))
      ensures old(OneVenuePerClient()) ==>
                forall v :: v in old(clients) ==>
                  StatusOf(old(clients)[v]) == AfterDisconnect(old(clients)[v], old(StatusOf(clients[v])))
    {
      visited := order;
      var cs := InOrder();
      InOrderTargets();
      InOrderApart();
      DisconnectEach(cs);
      forall v | v in old(clients)
        ensures Disconnected(StatusOf(old(clients)[v]))
        ensures old(OneVenuePerClient()) ==>
                  StatusOf(old(clients)[v]) == AfterDisconnect(old(clients)[v], old(StatusOf(clients[v])))
      {
        var j := IndexIn(order, v);
      }
    }

    /** The objects of the clients in order are the registered targets. */
    lemma InOrderTargets()
      requires Valid()
      ensures forall c :: c in InOrder() ==> Target(c) in Targets()
    {
      var cs := InOrder();
      forall c | c in cs
        ensures Target(c) in Targets()
      {
        var j :| 0 <= j < |cs| && cs[j] == c;
        assert order[j] in clients;
      }
    }

    /** One venue per client object keeps the clients in order apart. */
    lemma InOrderApart()
      requires Valid()
      ensures OneVenuePerClient() ==> Apart(InOrder())
    {
    }
  }

  /** The position of `v` in a sequence that holds it. */
  function IndexIn(s: seq<string>, v: string): (j: nat)
    requires v in s
    ensures j < |s| && s[j] == v
  {
    if s[0] == v then 0 else 1 + IndexIn(s[1..], v)
  }

  /** No two positions of `cs` hold the same client object. */
  ghost predicate Apart(cs: seq<Client>) {
    forall j, k :: 0 <= j < k < |cs| ==> Target(cs[j]) != Target(cs[k])
  }

  /** `forEach(client => client.connect())` over the clients in order. */
  method ConnectEach(cs: seq<Client>, creationFails: bool)
    modifies set c | c in cs :: Target(c)
    ensures Apart(cs) ==>
              forall j :: 0 <= j < |cs| ==> StatusOf(cs[j]) == AfterConnect(cs[j], old(StatusOf(cs[j])), creationFails)
  {
    for i := 0 to |cs|
      invariant Apart(cs) ==>
                  forall j :: 0 <= j < i ==> StatusOf(cs[j]) == AfterConnect(cs[j], old(StatusOf(cs[j])), creationFails)
      invariant Apart(cs) ==> forall j :: i <= j < |cs| ==> StatusOf(cs[j]) == old(StatusOf(cs[j]))
    {
      ConnectOne(cs[i], creationFails);
    }
  }

  /** `forEach(client => client.disconnect())` over the clients in order;
      a client object met twice is still left disconnected. */
  method DisconnectEach(cs: seq<Client>)
    modifies set c | c in cs :: Target(c)
    ensures forall j :: 0 <= j < |cs| ==> Disconnected(StatusOf(cs[j]))
    ensures Apart(cs) ==>
              forall j :: 0 <= j < |cs| ==> StatusOf(cs[j]) == AfterDisconnect(cs[j], old(StatusOf(cs[j])))
  {
    for i := 0 to |cs|
      invariant forall j :: 0 <= j < i ==> Disconnected(StatusOf(cs[j]))
      invariant Apart(cs) ==>
                  forall j :: 0 <= j < i ==> StatusOf(cs[j]) == AfterDisconnect(cs[j], old(StatusOf(cs[j])))
      invariant Apart(cs) ==> forall j :: i <= j < |cs| ==> StatusOf(cs[j]) == old(StatusOf(cs[j]))
    {
      label step:
      DisconnectOne(cs[i]);
      forall j | 0 <= j < i
        ensures Disconnected(StatusOf(cs[j]))
      {
        if Target(cs[j]) == Target(cs[i]) {
          SameTarget(cs[j], cs[i]);
        } else {
          assert StatusOf(cs[j]) == old@step(StatusOf(cs[j]));
        }
      }
    }
  }

  /** What a client holds at one moment. Binance tracks no book id and no
      snapshot flag; its status reads them as 0 and false. */
  datatype Status = Status(ws: Option<ReadyState>, isConnecting: bool, reconnectAttempts: nat,
                           lastUpdateId: int, snapshotFetched: bool, effects: seq<Effect>)

  ghost function StatusOf(c: Client): Status
    reads Target(c)
  {
    match c
    case Binance(b) => Status(b.ws, b.isConnecting, b.reconnectAttempts, 0, false, b.effects)
    case Okx(o) => Status(o.ws, o.isConnecting, o.reconnectAttempts, o.lastUpdateId, o.snapshotFetched, o.effects)
    case Bybit(y) => Status(y.ws, y.isConnecting, y.reconnectAttempts, y.lastUpdateId, y.snapshotFetched, y.effects)
    case Deribit(d) => Status(d.ws, d.isConnecting, d.reconnectAttempts, d.lastUpdateId, d.snapshotFetched, d.effects)
  }

  /** The address a client opens its socket to. */
  function UrlOf(c: Client): string {
    match c
    case Binance(b) => BinanceFeed.StreamUrl(b.symbol, b.depth)
    case Okx(_) => OkxFeed.BaseUrl
    case Bybit(_) => BybitFeed.BaseUrl
    case Deribit(_) => DeribitFeed.BaseUrl
  }

  /** The status `connect` leaves a client in: nothing happens while a
      connection is under way or open; a Binance socket that cannot be
      created is reported; otherwise a socket to the client's address is
      connecting. Attempts, book id and snapshot flag are kept. */
  function AfterConnect(c: Client, s: Status, creationFails: bool): Status {
    if s.isConnecting || IsOpen(s.ws) then s
    else if c.Binance? && creationFails then
      s.(isConnecting := false, effects := s.effects + [EmitError(BinanceFeed.CreateError)])
    else
      s.(ws := Some(Connecting), isConnecting := true, effects := s.effects + [OpenSocket(UrlOf(c))])
  }

  /** No socket, no attempts, and no book id or snapshot. */
  predicate Disconnected(s: Status) {
    s.ws == None && s.reconnectAttempts == 0 && s.lastUpdateId == 0 && !s.snapshotFetched
  }

  /** The status `disconnect` leaves a client in: the socket there was is
      closed normally, attempts, book id and snapshot flag are reset, the
      connecting flag is kept; Binance also reports the disconnection. */
  function AfterDisconnect(c: Client, s: Status): Status {
    s.(ws := None, reconnectAttempts := 0, lastUpdateId := 0, snapshotFetched := false,
       effects := s.effects
                  + (if s.ws.Some? then [CloseSocket(NormalClosure, "Manual disconnect")] else [])
                  + (if c.Binance? then [EmitDisconnected] else []))
  }

  /** A client object belongs to one venue, so it determines the client. */
  lemma SameTarget(c: Client, d: Client)
    requires Target(c) == Target(d)
    ensures c == d
  {
  }

  /** A second `connect` changes nothing once the first one has opened a
      socket or found one under way. */
  lemma ConnectTwice(c: Client, s: Status, creationFails: bool)
    requires !(c.Binance? && creationFails)
    ensures AfterConnect(c, AfterConnect(c, s, creationFails), creationFails) == AfterConnect(c, s, creationFails)
  {
  }

  /** A Binance client whose socket cannot be created reports it on every
      call, since the connecting flag is cleared again. */
  lemma FailedConnectRepeats(c: Client, s: Status)
    requires c.Binance? && !s.isConnecting && !IsOpen(s.ws)
    ensures AfterConnect(c, AfterConnect(c, s, true), true).effects
            == s.effects + [EmitError(BinanceFeed.CreateError), EmitError(BinanceFeed.CreateError)]
  {
  }

  /** `disconnect` leaves every client disconnected, and a second
      `disconnect` changes nothing more except that Binance reports the
      disconnection again. */
  lemma DisconnectTwice(c: Client, s: Status)
    ensures Disconnected(AfterDisconnect(c, s))
    ensures AfterDisconnect(c, AfterDisconnect(c, s)).(effects := []) == AfterDisconnect(c, s).(effects := [])
    ensures AfterDisconnect(c, AfterDisconnect(c, s)).effects
            == AfterDisconnect(c, s).effects + (if c.Binance? then [EmitDisconnected] else [])
  {
  }

  /** `disconnect` does not clear the connecting flag: a client disconnected
      while its socket was still connecting ignores the next `connect`,
      while one that was not connecting opens a fresh socket. */
  lemma ConnectAfterDisconnect(c: Client, s: Status, creationFails: bool)
    ensures s.isConnecting ==>
              AfterConnect(c, AfterDisconnect(c, s), creationFails) == AfterDisconnect(c, s)
    ensures !s.isConnecting && !(c.Binance? && creationFails) ==>
              AfterConnect(c, AfterDisconnect(c, s), creationFails).ws == Some(Connecting)
  {
  }

  /** `client.connect()` on a client of any venue. */
  method ConnectOne(c: Client, creationFails: bool)
    modifies Target(c)
    ensures StatusOf(c) == AfterConnect(c, old(StatusOf(c)), creationFails)
  {
    match c {
      case Binance(b) => b.Connect(creationFails);
      case Okx(o) => o.Connect();
      case Bybit(y) => y.Connect();
      case Deribit(d) => d.Connect();
    }
  }

  /** `client.disconnect()` on a client of any venue. */
  method DisconnectOne(c: Client)
    modifies Target(c)
    ensures StatusOf(c) == AfterDisconnect(c, old(StatusOf(c)))
  {
    match c {
      case Binance(b) => b.Disconnect();
      case Okx(o) => o.Disconnect();
      case Bybit(y) => y.Disconnect();
      case Deribit(d) => d.Disconnect();
    }
  }

  /** The shared instance: Binance and OKX clients with their default
      arguments; no Bybit or Deribit client is registered. */
  method DefaultManager() returns (m: WebSocketManager)
    ensures fresh(m) && m.Valid()
    ensures m.order == ["binance", "okx"]
    ensures m.GetClient("binance").Some? && m.GetClient("binance").value.Binance?
    ensures m.GetClient("okx").Some? && m.GetClient("okx").value.Okx?
    ensures m.GetClient("bybit") == None && m.GetClient("deribit") == None
    ensures m.clients["binance"].binance.symbol == "BTCUSDT" && m.clients["binance"].binance.depth == 20
    ensures m.clients["okx"].okx.symbol == "BTC-USDT"
  {
    DefaultSymbols();
    m := new WebSocketManager();
    var binance := new BinanceFeed.BinanceClient(BinanceFeed.DefaultSymbol, BinanceFeed.DefaultDepth,
                                                 BinanceFeed.DefaultUpdateSpeed);
    m.AddClient("binance", Binance(binance));
    assert "okx" != "binance" && "bybit" != "binance" && "deribit" != "binance";
    var okx := new OkxFeed.OkxClient(OkxFeed.DefaultSymbol);
    m.AddClient("okx", Okx(okx));
    assert "bybit" != "okx" && "deribit" != "okx";
  }

  /** The default symbols are already in the form the constructors store. */
  lemma DefaultSymbols()
    ensures Text.Upper(BinanceFeed.DefaultSymbol) == "BTCUSDT"
    ensures BinanceFeed.ValidateDepth(BinanceFeed.DefaultDepth) == 20
    ensures OkxFeed.NormalizeSymbol(OkxFeed.DefaultSymbol) == "BTC-USDT"
  {
  }
}
