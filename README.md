# Order-book visualizer core, modelled in Dafny

This project models the data side of a browser order-book visualizer that streams
level-2 books from four crypto venues. The model covers:

- **Venue clients.** Deribit, OKX, Bybit and Binance each have a client. It opens a
  socket, subscribes, turns venue frames into snapshots and incremental updates, and
  reconnects with exponential backoff. Each client is a `class` whose fields are the
  client's own fields: socket state, `isConnecting`, `reconnectAttempts`, and for the
  first three `lastUpdateId` and `snapshotFetched`. Every socket and timer callback is
  a method. What a callback does to the outside world is appended to an `effects`
  list: callbacks fired, sockets opened and closed, timers scheduled, warnings.
- **Client registry.** `WebSocketManager` and the default registry built in
  `websocket.tsx`.
- **Live book.** The `useWebSocket` hook keeps the live book as two price-keyed maps.
  A snapshot refills them and an update edits them, with quantity 0 meaning "delete".
  The hook rebuilds sorted level lists and derives the aggregated book and its metrics.
- **Redux slices.** The order-book, filter, settings and analytics slices are classes
  whose reducers are methods. Each reducer states the whole new state as a change of
  the old one.
- **Utility helpers.** Number-format choices, the hex colour codec, `chunk` and
  `groupBy`.
- **Chart data preparation.** The depth chart's cumulative curves and ranges, the
  order-book table's rows, and the 3D bars' positions and sizes.

Prices, quantities and volumes are `real`. JavaScript's `±Infinity` results
(`Math.min()` or `Math.max()` of no values) and divisions by zero are modelled as
`Option` values. Venue frames arrive already parsed, as datatypes. A frame that
`JSON.parse` rejects, or that lacks a field the handler reads, is the `Malformed`
message.

Modules, one per file:

- `Wrappers`, `Seqs`, `Numbers`, `Text`: generic helpers.
- `OrderbookTypes`: the shared records.
- `Backoff`, `Feed`: reconnect policy and the shared effect vocabulary.
- `DeribitFeed`, `OkxFeed`, `BybitFeed`, `BinanceFeed`: the venue clients.
- `Registry`: the client registry.
- `BookMetrics`, `LocalBook`: the hook.
- `OrderbookSlice`, `FilterSlice`, `SettingsSlice`, `AnalyticsSlice`: the Redux slices.
- `Utils`: the utility helpers.
- `ChartRanges`, `DepthChart`, `AsksBids`, `OrderbookBars`: the chart data preparation.

Some behaviour of the clients is easy to misread; "Notes on the source's behaviour"
below lists it.

## Model

| member | source | states |
|---|---|---|
| Backoff.UncappedDelay | src/lib/api/DeribitWebsocketClient.ts:242 | the delay before attempt n is at least the 1000 ms base delay |
| Backoff.DelayDoubles | src/lib/api/OkxWebSocketClient.ts:219 | each retry waits exactly twice as long as the previous one |
| Backoff.CappedDelay | src/lib/api/BinanceWebSocketClient.ts:151-154 | Binance's delay never exceeds 30000 ms or the uncapped delay, and is one of the two |
| Backoff.ScheduledAttemptReconnects | src/lib/api/BybitWebsocketClient.ts:107-110 | an attempt scheduled by the close handler always passes the timer's `attempts <= max` test |
| Backoff.CapNeverBinds | src/lib/api/BinanceWebSocketClient.ts:149-163 | for the attempts that can occur (1..5) the 30 s cap never binds and delays stay at most 16000 ms |
| Backoff.FullSchedule | src/lib/api/DeribitWebsocketClient.ts:240-253 | the five retry delays are 1000, 2000, 4000, 8000, 16000 ms |
| Feed.LevelsOf | src/lib/api/OkxWebSocketClient.ts:168-179 | one level per wire row, in order, carrying the row's price and size and the frame's timestamp and venue |
| Feed.ScheduledDelaysAppend | src/lib/api/DeribitWebsocketClient.ts:240-253 | the delays a run of callbacks schedules are those of its parts, concatenated |
| Feed.RetryDelays | src/lib/api/DeribitWebsocketClient.ts:106-121 | a failed connection followed by its timer adds exactly one scheduled delay |
| DeribitFeed.SnapshotOf | src/lib/api/DeribitWebsocketClient.ts:167-194 | the snapshot carries the instrument, venue, timestamp and change id, with one level per row (price, amount) |
| DeribitFeed.UpdateOf | src/lib/api/DeribitWebsocketClient.ts:215-234 | the update spans prev_change_id to change_id, with one level per row |
| DeribitFeed.Channel | src/lib/api/DeribitWebsocketClient.ts:137 | the subscription channel is `book.<symbol>.100ms`, so it passes the `book.` routing test |
| DeribitFeed.DeribitClient.constructor | src/lib/api/DeribitWebsocketClient.ts:49-52 | a new client holds no socket, no attempts and no sequence state |
| DeribitFeed.DeribitClient.Connect | src/lib/api/DeribitWebsocketClient.ts:76-86 | a no-op while connecting or open; otherwise it opens a socket to the test endpoint and marks the client connecting |
| DeribitFeed.DeribitClient.OnOpen | src/lib/api/DeribitWebsocketClient.ts:88-94 | opening clears `isConnecting` and resets the attempt counter |
| DeribitFeed.DeribitClient.ScheduleReconnectTimer | src/lib/api/DeribitWebsocketClient.ts:240-253 | the counter goes up by one and a timer with the doubled delay is scheduled |
| DeribitFeed.DeribitClient.OnClose | src/lib/api/DeribitWebsocketClient.ts:106-121 | emits "disconnected"; for an abnormal close with attempts left, schedules exactly one retry, otherwise none |
| DeribitFeed.DeribitClient.OnError | src/lib/api/DeribitWebsocketClient.ts:123-127 | emits the connection-error callback and clears `isConnecting`, nothing else |
| DeribitFeed.DeribitClient.OnTimer | src/lib/api/DeribitWebsocketClient.ts:247-252 | the timer reconnects exactly as `connect` would |
| DeribitFeed.DeribitClient.HandleSnapshot | src/lib/api/DeribitWebsocketClient.ts:167-194 | records the change id, marks the snapshot fetched and emits the converted snapshot |
| DeribitFeed.DeribitClient.HandleUpdate | src/lib/api/DeribitWebsocketClient.ts:196-238 | updates before a snapshot are dropped; after one, a sequence gap only warns, and the update is always emitted and advances the change id |
| DeribitFeed.DeribitClient.OnMessage | src/lib/api/DeribitWebsocketClient.ts:144-165 | parse failures raise the parse error; failed RPC responses raise their message; a book snapshot is stored and emitted; a book change before any snapshot is dropped, after one it warns on a gap, records its change id and emits the update; everything else changes nothing; the ids change only on these two routes |
| DeribitFeed.DeribitClient.Disconnect | src/lib/api/DeribitWebsocketClient.ts:255-263 | closes with code 1000 if a socket exists, forgets it, and resets attempts and sequence state |
| DeribitFeed.ConsecutiveFailures | src/lib/api/DeribitWebsocketClient.ts:106-121 | six abnormal closes in a row schedule exactly the delays 1000..16000 and the sixth schedules nothing |
| OkxFeed.NormalizeSymbol | src/lib/api/OkxWebSocketClient.ts:56-58 | the stored symbol is the upper-cased argument, letter by letter |
| OkxFeed.SnapshotOf | src/lib/api/OkxWebSocketClient.ts:159-184 | the snapshot carries the symbol, venue, `ts` and checksum, with one level per row |
| OkxFeed.UpdateOf | src/lib/api/OkxWebSocketClient.ts:186-215 | the update runs from the previous id + 1 to the new checksum, with one level per row |
| OkxFeed.OkxClient.constructor | src/lib/api/OkxWebSocketClient.ts:56-58 | a new client has the normalised symbol and empty state |
| OkxFeed.OkxClient.Connect | src/lib/api/OkxWebSocketClient.ts:82-90 | a no-op while connecting or open; otherwise it opens the public endpoint |
| OkxFeed.OkxClient.OnOpen | src/lib/api/OkxWebSocketClient.ts:91-97 | opening clears `isConnecting` and resets the attempt counter |
| OkxFeed.OkxClient.ScheduleReconnectTimer | src/lib/api/OkxWebSocketClient.ts:217-228 | the counter goes up by one and a timer with the doubled delay is scheduled |
| OkxFeed.OkxClient.OnClose | src/lib/api/OkxWebSocketClient.ts:109-117 | emits "disconnected" and retries only after an abnormal close with attempts left |
| OkxFeed.OkxClient.OnError | src/lib/api/OkxWebSocketClient.ts:119-123 | emits the connection error and clears `isConnecting` |
| OkxFeed.OkxClient.OnTimer | src/lib/api/OkxWebSocketClient.ts:223-227 | the timer reconnects exactly as `connect` would |
| OkxFeed.OkxClient.HandleSnapshot | src/lib/api/OkxWebSocketClient.ts:159-184 | an empty data array raises the parse error; otherwise the first entry becomes the snapshot and the stored id is left as it was |
| OkxFeed.OkxClient.HandleUpdate | src/lib/api/OkxWebSocketClient.ts:186-215 | updates before a snapshot are dropped; after one, the first entry is emitted and its checksum becomes the last id |
| OkxFeed.OkxClient.OnMessage | src/lib/api/OkxWebSocketClient.ts:141-157 | a parse failure raises the parse error and keeps the ids; an error event raises its message; a snapshot push emits `data[0]` as the snapshot, or raises the parse error when `data` is empty; an update push before any snapshot changes nothing, after one it records the checksum and emits the update, or raises the parse error when `data` is empty; other frames change nothing |
| OkxFeed.OkxClient.Disconnect | src/lib/api/OkxWebSocketClient.ts:230-238 | closes with code 1000 if a socket exists and resets all state |
| BybitFeed.NormalizeSymbol | src/lib/api/BybitWebsocketClient.ts:49 | the first `-` is removed and the rest is upper-cased |
| BybitFeed.SnapshotOf | src/lib/api/BybitWebsocketClient.ts:147-172 | the snapshot carries the frame's symbol, `ts` and update id, with one level per row |
| BybitFeed.UpdateOf | src/lib/api/BybitWebsocketClient.ts:174-203 | the update runs from the previous id + 1 to the frame's id, with one level per row |
| BybitFeed.BybitClient.constructor | src/lib/api/BybitWebsocketClient.ts:48-51 | a new client has the normalised symbol, the depth and empty state |
| BybitFeed.BybitClient.Connect | src/lib/api/BybitWebsocketClient.ts:75-83 | a no-op while connecting or open; otherwise it opens the public endpoint |
| BybitFeed.BybitClient.OnOpen | src/lib/api/BybitWebsocketClient.ts:84-90 | opening clears `isConnecting` and resets the attempt counter |
| BybitFeed.BybitClient.ScheduleReconnectTimer | src/lib/api/BybitWebsocketClient.ts:205-216 | the counter goes up by one and a timer with the doubled delay is scheduled |
| BybitFeed.BybitClient.OnClose | src/lib/api/BybitWebsocketClient.ts:102-110 | emits "disconnected" and retries only after an abnormal close with attempts left |
| BybitFeed.BybitClient.OnError | src/lib/api/BybitWebsocketClient.ts:112-116 | emits the connection error and clears `isConnecting` |
| BybitFeed.BybitClient.OnTimer | src/lib/api/BybitWebsocketClient.ts:211-215 | the timer reconnects exactly as `connect` would |
| BybitFeed.BybitClient.HandleSnapshot | src/lib/api/BybitWebsocketClient.ts:147-172 | marks the snapshot fetched and emits it; the stored update id is left as it was |
| BybitFeed.BybitClient.HandleUpdate | src/lib/api/BybitWebsocketClient.ts:174-203 | deltas before a snapshot are dropped; after one they are emitted and advance the id |
| BybitFeed.BybitClient.OnMessage | src/lib/api/BybitWebsocketClient.ts:129-145 | a parse failure raises the parse error and keeps the ids; a failed response raises its message; a snapshot topic is emitted and marks the snapshot fetched; a delta before any snapshot changes nothing, after one it records `u` and emits the update; other frames change nothing |
| BybitFeed.BybitClient.Disconnect | src/lib/api/BybitWebsocketClient.ts:218-226 | closes with code 1000 if a socket exists and resets all state |
| BinanceFeed.ValidateDepth | src/lib/api/BinanceWebSocketClient.ts:38-43 | the depth is kept when it is 5, 10 or 20 and becomes 20 otherwise |
| BinanceFeed.SnapshotOf | src/lib/api/BinanceWebSocketClient.ts:125-146 | each partial-depth frame becomes a full snapshot stamped with the receive time |
| BinanceFeed.BinanceClient.constructor | src/lib/api/BinanceWebSocketClient.ts:31-45 | the symbol is upper-cased, the depth validated and the update speed kept |
| BinanceFeed.BinanceClient.Connect | src/lib/api/BinanceWebSocketClient.ts:70-123 | a no-op while connecting or open; otherwise a socket to the stream URL is connecting, or, when the socket constructor throws, the connecting flag is cleared and the creation error is reported, with no retry scheduled |
| BinanceFeed.BinanceClient.OnOpen | src/lib/api/BinanceWebSocketClient.ts:84-89 | opening resets the attempts and emits "connected" |
| BinanceFeed.BinanceClient.ScheduleReconnectTimer | src/lib/api/BinanceWebSocketClient.ts:149-163 | the counter goes up by one and a timer with the capped doubled delay is scheduled |
| BinanceFeed.BinanceClient.OnClose | src/lib/api/BinanceWebSocketClient.ts:101-110 | emits "disconnected" and retries only after an abnormal close with attempts left |
| BinanceFeed.BinanceClient.OnError | src/lib/api/BinanceWebSocketClient.ts:112-116 | emits the connection error and clears `isConnecting` |
| BinanceFeed.BinanceClient.OnTimer | src/lib/api/BinanceWebSocketClient.ts:158-162 | the timer reconnects exactly as `connect` would |
| BinanceFeed.BinanceClient.OnMessage | src/lib/api/BinanceWebSocketClient.ts:91-99 | a parse failure raises the parse error; every depth frame is emitted as a snapshot |
| BinanceFeed.BinanceClient.Disconnect | src/lib/api/BinanceWebSocketClient.ts:166-173 | forgets the socket and resets the attempts |
| BinanceFeed.FailAndRetry | src/lib/api/BinanceWebSocketClient.ts:101-110 | an abnormal close and its timer raise the attempt count by one, reopen the socket and schedule exactly the uncapped delay |
| BinanceFeed.ConsecutiveFailures | src/lib/api/BinanceWebSocketClient.ts:101-110 | six abnormal closes schedule 1000..16000 ms and then nothing, so the cap is never reached |
| Registry.WebSocketManager.constructor | src/lib/api/WebSocketManager.ts:17 | a new registry is empty |
| Registry.WebSocketManager.GetClient | src/lib/api/WebSocketManager.ts:23-25 | a lookup finds a client exactly when the venue was registered, and then returns that client |
| Registry.WebSocketManager.AddClient | src/lib/api/WebSocketManager.ts:19-21 | the venue maps to the new client; every other venue is unchanged; a new venue joins the iteration order at the end |
| Registry.WebSocketManager.InOrder | src/lib/api/WebSocketManager.ts:27-33 | the clients `forEach` visits: one per registered venue, in insertion order |
| Registry.WebSocketManager.ConnectAll | src/lib/api/WebSocketManager.ts:27-29 | every registered venue is visited once, in insertion order; when no client object is registered twice, each client ends in the state its own `connect` gives from its state before the call |
| Registry.WebSocketManager.DisconnectAll | src/lib/api/WebSocketManager.ts:31-33 | every registered venue is visited once, in insertion order; every client ends with no socket, no attempts and no book id or snapshot; when no client object is registered twice, each client ends in the state its own `disconnect` gives from its state before the call |
| Registry.ConnectEach | src/lib/api/WebSocketManager.ts:28 | `connect` on each client of a list in turn leaves each (distinct) client as its own `connect` would |
| Registry.DisconnectEach | src/lib/api/WebSocketManager.ts:32 | `disconnect` on each client of a list in turn leaves every client disconnected, and each (distinct) client as its own `disconnect` would |
| Registry.ConnectOne | src/lib/api/WebSocketManager.ts:28 | `connect` on a client of any venue moves its status as `AfterConnect` says: a no-op while connecting or open, a Binance creation failure reported, otherwise a socket to the venue's URL is connecting |
| Registry.DisconnectOne | src/lib/api/WebSocketManager.ts:32 | `disconnect` on a client of any venue moves its status as `AfterDisconnect` says: the socket closed normally, attempts, book id and snapshot flag reset, the connecting flag kept, Binance also reporting the disconnection |
| Registry.ConnectTwice | src/lib/api/OkxWebSocketClient.ts:82-85 | a second `connect` changes nothing once the first has opened a socket or found one under way |
| Registry.FailedConnectRepeats | src/lib/api/BinanceWebSocketClient.ts:118-122 | a Binance client whose socket cannot be created reports the failure again on every call |
| Registry.DisconnectTwice | src/lib/api/OkxWebSocketClient.ts:230-238 | after `disconnect` a client is disconnected; a second `disconnect` changes nothing more, except that Binance reports the disconnection again |
| Registry.ConnectAfterDisconnect | src/lib/api/BybitWebsocketClient.ts:218-226 | `disconnect` keeps the connecting flag, so a client disconnected mid-connection ignores the next `connect`, and any other client opens a fresh socket |
| Registry.DefaultManager | src/lib/api/websocket.tsx:6-11 | the default registry holds Binance BTCUSDT depth 20 and OKX BTC-USDT, in that order, and nothing else |
| BookMetrics.TotalQuantityNonNegative | src/hooks/useWebSocket.ts:162-163 | side totals of non-negative sizes are non-negative |
| BookMetrics.TotalQuantityAppend | src/hooks/useWebSocket.ts:162-163 | the total of a concatenation is the sum of the totals |
| BookMetrics.ConvertToAggregated | src/hooks/useWebSocket.ts:160-181 | the levels are kept; totals are the side sums; mid ± half the spread gives back the best bid and best ask |
| BookMetrics.AggregatedTotalsNonNegative | src/hooks/useWebSocket.ts:162-163 | the aggregated totals are non-negative for non-negative sizes |
| BookMetrics.DepthBoundedByTotal | src/hooks/useWebSocket.ts:192-208 | the depth within 1% of the best quote lies between 0 and the side total |
| BookMetrics.SpreadPercentage | src/hooks/useWebSocket.ts:189 | defined exactly when the mid is non-zero, and then it is 100 × spread / mid |
| BookMetrics.Imbalance | src/hooks/useWebSocket.ts:210 | the bid/ask volume ratio, or the bid volume when there is no ask volume |
| BookMetrics.WeightedMid | src/hooks/useWebSocket.ts:214-226 | the volume-weighted price, or the plain mid when both volumes are zero |
| BookMetrics.WeightedMidBetweenQuotes | src/hooks/useWebSocket.ts:214-226 | with volume on the book and an uncrossed book, the weighted mid lies between the best bid and the best ask |
| BookMetrics.MetricsOfSnapshot | src/hooks/useWebSocket.ts:184-229 | the metrics' volumes and depths are non-negative and the total volume is the sum of the two sides |
| BookMetrics.CalculateMetrics | src/hooks/useWebSocket.ts:184-229 | the computed metrics equal the metrics specification of the book |
| LocalBook.LastAt | src/hooks/useWebSocket.ts:90-101 | the last level at a price in a list, found exactly when the price occurs |
| LocalBook.Fill | src/hooks/useWebSocket.ts:90-101 | the filled map's keys are the old keys plus the listed prices, and each entry stays keyed by its own price |
| LocalBook.ApplyChanges | src/hooks/useWebSocket.ts:116-135 | editing never adds a price that was neither present nor listed, and keeps entries keyed by price |
| LocalBook.FillAt | src/hooks/useWebSocket.ts:90-101 | after filling, a price maps to its last listed level, or to its old entry if unlisted |
| LocalBook.ApplyAt | src/hooks/useWebSocket.ts:116-135 | after an update, a price whose last change has size 0 is absent, one with another size maps to that level, and an unlisted one is unchanged |
| LocalBook.Without | src/hooks/useWebSocket.ts:116-135 | deleting a key keeps every other key and the keys' distinctness |
| LocalBook.WithKey | src/hooks/useWebSocket.ts:116-135 | setting a key adds it once, keeping distinctness |
| LocalBook.FillTracks | src/hooks/useWebSocket.ts:90-101 | the insertion-order key list still lists exactly the map's keys after a fill |
| LocalBook.ApplyTracks | src/hooks/useWebSocket.ts:116-135 | the insertion-order key list still lists exactly the map's keys after an update |
| LocalBook.Insert | src/hooks/useWebSocket.ts:138-147 | inserting a level with a new price keeps the list strictly ordered and adds exactly that level |
| LocalBook.InsertListing | src/hooks/useWebSocket.ts:138-147 | inserting the map's new entry turns a listing of the map into a listing of the extended map |
| LocalBook.ListLevels | src/hooks/useWebSocket.ts:138-147 | the rebuilt list holds every map entry once, bids strictly descending and asks strictly ascending |
| LocalBook.ListingHead | src/hooks/useWebSocket.ts:138-147 | the first level of a listing is the best price of the map |
| LocalBook.ListingTail | src/hooks/useWebSocket.ts:138-147 | dropping the first level lists the rest of the map |
| LocalBook.ListingUnique | src/hooks/useWebSocket.ts:138-147 | a map has only one listing, so the rebuilt order does not depend on the insertion order |
| LocalBook.SetAll | src/hooks/useWebSocket.ts:90-101 | the loop over snapshot levels produces the filled map and its key order |
| LocalBook.EditAll | src/hooks/useWebSocket.ts:116-135 | the loop over update levels produces the edited map and its key order |
| LocalBook.BookMaps.constructor | src/hooks/useWebSocket.ts:48-49 | both maps start empty |
| LocalBook.BookMaps.OnSnapshot | src/hooks/useWebSocket.ts:87-110 | both maps are replaced by the snapshot's levels; the book and metrics are derived from the snapshot |
| LocalBook.BookMaps.OnUpdate | src/hooks/useWebSocket.ts:112-156 | both maps are edited by the update; the rebuilt snapshot lists the maps in price order with the update's ids; the book and metrics are derived from it |
| OrderbookSlice.ToggleMembership | src/store/orderbookslice.ts:67-78 | toggling a venue flips its membership and leaves every other venue's membership alone |
| OrderbookSlice.ToggleTwice | src/store/orderbookslice.ts:67-78 | toggling twice restores the membership, and the exact list when the venue was absent |
| OrderbookSlice.ToggleKeepsSingle | src/store/orderbookslice.ts:67-78 | toggling never leaves two copies of the toggled venue |
| OrderbookSlice.ToggleAppended | src/store/orderbookslice.ts:67-78 | toggling a venue just appended removes exactly that copy |
| OrderbookSlice.ToggleKeepsDistinct | src/store/orderbookslice.ts:67-78 | a list without duplicates keeps that property |
| OrderbookSlice.OrderbookStore.constructor | src/store/orderbookslice.ts:12-22 | the store starts from the initial state |
| OrderbookSlice.OrderbookStore.SetLoading | src/store/orderbookslice.ts:28-30 | only the loading flag changes |
| OrderbookSlice.OrderbookStore.SetConnected | src/store/orderbookslice.ts:32-39 | the flag is set; connecting clears the error; disconnecting records "Connection lost"; nothing else changes |
| OrderbookSlice.OrderbookStore.SetError | src/store/orderbookslice.ts:41-46 | the error is set; a non-empty error also marks the store disconnected; nothing else changes |
| OrderbookSlice.OrderbookStore.UpdateSnapshot | src/store/orderbookslice.ts:48-53 | the book and the receive time are stored and the error is cleared |
| OrderbookSlice.OrderbookStore.UpdateMetrics | src/store/orderbookslice.ts:55-57 | only the metrics change |
| OrderbookSlice.OrderbookStore.UpdatePressureZones | src/store/orderbookslice.ts:59-61 | only the pressure zones change |
| OrderbookSlice.OrderbookStore.SetSelectedVenues | src/store/orderbookslice.ts:63-65 | only the venue selection changes |
| OrderbookSlice.OrderbookStore.ToggleVenue | src/store/orderbookslice.ts:67-78 | only the selection changes, by the toggle |
| OrderbookSlice.OrderbookStore.ClearOrderbook | src/store/orderbookslice.ts:80-86 | book, metrics, zones and the update time are cleared; the connection fields stay |
| OrderbookSlice.OrderbookStore.ResetConnection | src/store/orderbookslice.ts:88-92 | connection, loading and error are reset; the data stays |
| OrderbookSlice.ToggleVenueTwice | src/store/orderbookslice.ts:67-78 | two toggles in the store restore the selection's membership |
| FilterSlice.VenueFilters.With | src/store/filterslice.ts:109-115 | replacing one venue's filter leaves every other venue's filter alone |
| FilterSlice.VisualizationFilters.Flip | src/store/filterslice.ts:117-137 | flipping one switch negates it and leaves the other switches alone |
| FilterSlice.FlipTwice | src/store/filterslice.ts:117-137 | flipping a switch twice restores the filters |
| FilterSlice.ToggleVenueFilter | src/store/filterslice.ts:104-107 | toggling a venue negates its `enabled` flag and keeps its opacity and the other venues |
| FilterSlice.ToggleVenueFilterTwice | src/store/filterslice.ts:104-107 | toggling a venue twice restores the venue filters |
| FilterSlice.InitiallyOnlyOkx | src/store/filterslice.ts:51-56 | initially only OKX is enabled, and the time range is five minutes |
| FilterSlice.FiltersStore.constructor | src/store/filterslice.ts:37-68 | the store starts from the initial filters |
| FilterSlice.FiltersStore.SetPriceRange | src/store/filterslice.ts:74-80 | the bounds change and the range's enabled flag is kept |
| FilterSlice.FiltersStore.TogglePriceRangeFilter | src/store/filterslice.ts:82-84 | only the price range's enabled flag flips |
| FilterSlice.FiltersStore.SetQuantityThreshold | src/store/filterslice.ts:86-88 | only the threshold's minimum changes |
| FilterSlice.FiltersStore.ToggleQuantityFilter | src/store/filterslice.ts:90-92 | only the threshold's enabled flag flips |
| FilterSlice.FiltersStore.SetTimeRange | src/store/filterslice.ts:94-102 | only the time range changes |
| FilterSlice.FiltersStore.ToggleVenue | src/store/filterslice.ts:104-107 | only that venue's enabled flag flips |
| FilterSlice.FiltersStore.SetVenueOpacity | src/store/filterslice.ts:109-115 | that venue's opacity becomes the value clamped to [0, 1]; everything else is unchanged |
| FilterSlice.FiltersStore.ToggleBids | src/store/filterslice.ts:117-119 | only the bids switch flips |
| FilterSlice.FiltersStore.ToggleAsks | src/store/filterslice.ts:121-123 | only the asks switch flips |
| FilterSlice.FiltersStore.TogglePressureZones | src/store/filterslice.ts:125-128 | only the pressure-zone switch flips |
| FilterSlice.FiltersStore.ToggleVolumeProfile | src/store/filterslice.ts:130-133 | only the volume-profile switch flips |
| FilterSlice.FiltersStore.ToggleOrderFlow | src/store/filterslice.ts:135-137 | only the order-flow switch flips |
| FilterSlice.FiltersStore.SetSearchPriceLevel | src/store/filterslice.ts:139-141 | only the searched price level changes |
| FilterSlice.FiltersStore.SetSearchVenue | src/store/filterslice.ts:143-145 | only the searched venue changes |
| FilterSlice.FiltersStore.ResetFilters | src/store/filterslice.ts:147-149 | the whole state returns to the initial filters |
| FilterSlice.FiltersStore.ResetVisualizationFilters | src/store/filterslice.ts:151-153 | only the visualization switches return to their initial values |
| FilterSlice.TogglesAreInvolutions | src/store/filterslice.ts:104-137 | toggling a venue and every switch twice leaves the store as it was |
| SettingsSlice.Or | src/store/settingslice.ts:69-74 | a field given in the patch wins; an absent one keeps the old value |
| SettingsSlice.VisualizationPatchLaws | src/store/settingslice.ts:69-74 | the empty patch changes nothing; a patch applied twice equals it applied once; two patches in a row equal their merge |
| SettingsSlice.CameraPatchLaws | src/store/settingslice.ts:76-81 | camera patches are idempotent, keep absent fields and set present ones; the empty patch changes nothing |
| SettingsSlice.OtherViewMode | src/store/settingslice.ts:151-153 | the view mode always changes |
| SettingsSlice.OtherViewModeTwice | src/store/settingslice.ts:151-153 | toggling the view mode twice restores it |
| SettingsSlice.SettingsStore.constructor | src/store/settingslice.ts:23-63 | the store starts from the initial settings |
| SettingsSlice.SettingsStore.UpdateVisualizationSettings | src/store/settingslice.ts:69-74 | only the visualization settings change, by the patch |
| SettingsSlice.SettingsStore.UpdateCameraSettings | src/store/settingslice.ts:76-81 | only the camera settings change, by the patch |
| SettingsSlice.SettingsStore.SetTheme | src/store/settingslice.ts:83-85 | only the theme changes |
| SettingsSlice.SettingsStore.ToggleAutoRotate | src/store/settingslice.ts:87-90 | the visualization flag flips and the camera's flag is made equal to it |
| SettingsSlice.SettingsStore.SetRotationSpeed | src/store/settingslice.ts:92-95 | the speed is written to both the visualization and the camera settings |
| SettingsSlice.SettingsStore.ToggleGrid | src/store/settingslice.ts:97-99 | only the grid flag flips |
| SettingsSlice.SettingsStore.ToggleAxes | src/store/settingslice.ts:101-103 | only the axes flag flips |
| SettingsSlice.SettingsStore.TogglePressureZones | src/store/settingslice.ts:105-108 | only the pressure-zone flag flips |
| SettingsSlice.SettingsStore.ToggleVolumeProfile | src/store/settingslice.ts:110-113 | only the volume-profile flag flips |
| SettingsSlice.SettingsStore.SetTransparency | src/store/settingslice.ts:115-120 | the transparency becomes the value clamped to [0, 1] |
| SettingsSlice.SettingsStore.SetLevelOfDetail | src/store/settingslice.ts:122-127 | only the level of detail changes |
| SettingsSlice.SettingsStore.UpdatePerformanceSettings | src/store/settingslice.ts:129-134 | only the performance settings change, by the patch |
| SettingsSlice.SettingsStore.UpdateUiSettings | src/store/settingslice.ts:136-141 | only the UI settings change, by the patch |
| SettingsSlice.SettingsStore.ToggleControlPanel | src/store/settingslice.ts:143-145 | only the control-panel flag flips |
| SettingsSlice.SettingsStore.ToggleStats | src/store/settingslice.ts:147-149 | only the stats flag flips |
| SettingsSlice.SettingsStore.ToggleViewMode | src/store/settingslice.ts:151-153 | only the view mode changes, to the other mode |
| SettingsSlice.SettingsStore.SetViewMode | src/store/settingslice.ts:155-157 | only the view mode changes |
| SettingsSlice.SettingsStore.ResetSettings | src/store/settingslice.ts:159-161 | the whole state returns to the initial settings |
| AnalyticsSlice.TrendOf | src/store/analyticsslice.ts:133-140 | bullish exactly above 1.1, bearish exactly below 0.9, neutral exactly in between |
| AnalyticsSlice.MaxVolumeIndex | src/store/analyticsslice.ts:154-157 | the reduce picks the first level of greatest volume |
| AnalyticsSlice.MaxVolumePrice | src/store/analyticsslice.ts:154-158 | 0 for an empty profile; otherwise the price of a level whose volume is the greatest, the first such level |
| AnalyticsSlice.Strongest | src/store/analyticsslice.ts:174-177 | the first level, unless the list is empty or that level is 0 |
| AnalyticsSlice.FirstWithId | src/store/analyticsslice.ts:204 | the index of the first alert with the id, or the length when there is none |
| AnalyticsSlice.Acknowledged | src/store/analyticsslice.ts:203-208 | only the first alert with the id is marked acknowledged; with no such alert nothing changes |
| AnalyticsSlice.WithoutId | src/store/analyticsslice.ts:210-212 | keeps exactly the alerts with other ids |
| AnalyticsSlice.WithoutIdAppend | src/store/analyticsslice.ts:210-212 | the filter of a concatenation is the concatenation of the filtered parts, so the kept alerts keep their order and repetitions |
| AnalyticsSlice.WithoutIdSingle | src/store/analyticsslice.ts:210-212 | one alert is kept exactly when its id differs |
| AnalyticsSlice.WithoutIdIdempotent | src/store/analyticsslice.ts:210-212 | removing an id twice is the same as removing it once |
| AnalyticsSlice.AnalyticsStore.constructor | src/store/analyticsslice.ts:67-100 | the store starts from the initial analytics state |
| AnalyticsSlice.AnalyticsStore.UpdateSpreadData | src/store/analyticsslice.ts:106-121 | the sample is current and last in a history of at most 1000; average, min and max are over that history, and min ≤ average ≤ max |
| AnalyticsSlice.AnalyticsStore.UpdateImbalanceData | src/store/analyticsslice.ts:123-141 | the sample is appended to a history of at most 1000 and the trend follows its imbalance |
| AnalyticsSlice.AnalyticsStore.UpdateVolumeProfile | src/store/analyticsslice.ts:143-160 | the levels, their total volume, the price of greatest volume and the time are stored |
| AnalyticsSlice.AnalyticsStore.UpdatePressureZoneStats | src/store/analyticsslice.ts:162-178 | the level lists are stored and the strongest of each side is its first non-zero level |
| AnalyticsSlice.AnalyticsStore.UpdatePerformanceStats | src/store/analyticsslice.ts:180-185 | only the performance stats change, by the patch |
| AnalyticsSlice.AnalyticsStore.AddAlert | src/store/analyticsslice.ts:187-201 | the new alert comes first, with the given id, and at most 50 alerts are kept |
| AnalyticsSlice.AnalyticsStore.AcknowledgeAlert | src/store/analyticsslice.ts:203-208 | only the alerts change, by acknowledging the first match |
| AnalyticsSlice.AnalyticsStore.RemoveAlert | src/store/analyticsslice.ts:210-212 | only the alerts change, losing every alert with the id |
| AnalyticsSlice.AnalyticsStore.ClearAlerts | src/store/analyticsslice.ts:214-216 | only the alerts are emptied |
| AnalyticsSlice.AnalyticsStore.ClearHistory | src/store/analyticsslice.ts:218-222 | both histories and the alerts are emptied; the current values stay |
| AnalyticsSlice.AnalyticsStore.ResetAnalytics | src/store/analyticsslice.ts:224-226 | the whole state returns to the initial analytics state |
| Utils.FormatNumber | src/lib/utils/index.ts:10-21 | the B/M/K suffix is chosen by the magnitude's thresholds and the shown value times its scale is the input |
| Utils.UsdtMentionsUsd | src/lib/utils/index.ts:24-35 | the USDT test is subsumed by the USD test |
| Utils.FormatPrice | src/lib/utils/index.ts:24-35 | USD-quoted prices get 2 decimals from 1 up and 6 below 1; other symbols get 8 |
| Utils.FormatQuantity | src/lib/utils/index.ts:38-46 | from 1000 up the abbreviated form with a suffix; 3 decimals from 1 up; 6 below 1 |
| Utils.HexDigits | src/lib/utils/index.ts:131-140 | accepts exactly six hex digits, with or without a leading `#` |
| Utils.HexToRgb | src/lib/utils/index.ts:131-140 | a colour is produced exactly for well-formed hex strings |
| Utils.ToHexOfByte | src/lib/utils/index.ts:142-148 | a byte's fraction is rendered as its two lower-case hex digits |
| Utils.PairRoundTrip | src/lib/utils/index.ts:131-148 | a digit pair decoded and re-encoded comes back lower-cased |
| Utils.HexRoundTrip | src/lib/utils/index.ts:131-148 | decoding a hex colour and encoding it again gives `#` and the digits lower-cased |
| Utils.HexOfBytes | src/lib/utils/index.ts:142-148 | the encoding of three byte fractions is `#` and their six hex digits |
| Utils.RgbRoundTrip | src/lib/utils/index.ts:131-148 | encoding three byte fractions and decoding the result gives back the same colour |
| Utils.DecodeDigits | src/lib/utils/index.ts:131-140 | six hex digits of three bytes decode to those bytes' fractions |
| Utils.ChunkCount | src/lib/utils/index.ts:163-169 | full chunks and a non-empty last chunk mean the count is the ceiling of length / size |
| Utils.Chunk | src/lib/utils/index.ts:163-169 | the chunks concatenate back to the input, all are non-empty and at most `size`, all but the last are full, and there are ⌈n / size⌉ of them |
| Utils.Members | src/lib/utils/index.ts:171-184 | a group holds only input items with that key |
| Utils.KeysInOrder | src/lib/utils/index.ts:171-184 | the group keys are distinct and are exactly the keys of the items |
| Utils.NoMembers | src/lib/utils/index.ts:171-184 | a key no item has gets no group items |
| Utils.GroupSizesSum | src/lib/utils/index.ts:171-184 | the group sizes add up to the input length, so every item lands in exactly one group |
| Utils.GroupBy | src/lib/utils/index.ts:171-184 | there is a group exactly for each key that occurs, holding that key's items in input order |
| ChartRanges.OrOne | src/components/ui/DepthChart.tsx:451-452 | a zero range becomes 1; any other value is kept |
| Numbers.MinOfAttained | src/store/analyticsslice.ts:119 | `Math.min` of a non-empty list is one of its elements (and, by `MinOf`'s contract, at most every element) |
| Numbers.MaxOfAttained | src/store/analyticsslice.ts:120 | `Math.max` of a non-empty list is one of its elements (and, by `MaxOf`'s contract, at least every element) |
| ChartRanges.RangesAttained | src/components/ui/DepthChart.tsx:425-452 | the minimum and maximum prices are prices of kept levels, and the quantity scale is a kept level's size (or 1 for a zero size) |
| ChartRanges.RangesOf | src/components/ui/DepthChart.tsx:425-452 | with levels, min ≤ every price ≤ max, the price range is max − min or 1 when they are equal, and the quantity scale bounds every size and is non-zero; with no levels every range is absent |
| AsksBids.ProcessedData | src/components/table/AsksBids.tsx:10-21 | no table before the first book; then the first 15 bids in order and the last 15 asks in reverse |
| AsksBids.RowsComeFromTheBook | src/components/table/AsksBids.tsx:10-21 | at most 15 rows a side, each a level from the same side of the book |
| OrderbookBars.ProcessedData | src/components/visualization/OrderbookBars.tsx:43-75 | no data before the first book; then the first 100 levels a side and their ranges |
| OrderbookBars.BarOf | src/components/visualization/OrderbookBars.tsx:123-129 | every bar is at least 0.1 high and sits at ∓0.05 × its index |
| OrderbookBars.SideBars | src/components/visualization/OrderbookBars.tsx:109-160 | one bar per kept level |
| OrderbookBars.Layout | src/components/visualization/OrderbookBars.tsx:104-107 | nothing is drawn before the first book |
| OrderbookBars.PositionInChart | src/components/visualization/OrderbookBars.tsx:123-129 | a price inside the range is placed between 0 and 10 |
| OrderbookBars.SideBounds | src/components/visualization/OrderbookBars.tsx:123-129 | every bar of one side lies in [0, 10] along x, is at least 0.1 high and sits at its side's z offset |
| OrderbookBars.LayoutBounds | src/components/visualization/OrderbookBars.tsx:109-160 | one bar per kept level, each with x in [0, 10] and height at least 0.1; bids at z = −0.05 i and asks at z = 0.05 i |
| DepthChart.Insert | src/components/ui/DepthChart.tsx:433-434 | inserting into a sorted list keeps it sorted and adds exactly the new level |
| DepthChart.SortByPrice | src/components/ui/DepthChart.tsx:433-434 | the sorted levels are a permutation of the input, in price order |
| DepthChart.InsertTotal | src/components/ui/DepthChart.tsx:433-441 | inserting a level adds its size to the total |
| DepthChart.SortKeepsTotal | src/components/ui/DepthChart.tsx:433-441 | sorting keeps the total size |
| DepthChart.SortKeepsNonNegative | src/components/ui/DepthChart.tsx:433-441 | sorting keeps sizes non-negative |
| DepthChart.Cumulate | src/components/ui/DepthChart.tsx:432-441 | each sorted level is paired with the running total of sizes up to and including it |
| DepthChart.PrefixTotalMonotone | src/components/ui/DepthChart.tsx:436-440 | running totals never decrease for non-negative sizes |
| DepthChart.CumulativeShape | src/components/ui/DepthChart.tsx:432-441 | cumulative sizes are non-negative and non-decreasing, and the last one is the side's total |
| DepthChart.MaxCumulative | src/components/ui/DepthChart.tsx:447-450 | the greatest cumulative size exists exactly for a non-empty side and bounds every point |
| DepthChart.MaxQty | src/components/ui/DepthChart.tsx:447-450 | the scale exists exactly when either side has points, and bounds every point of both |
| DepthChart.MaxOfNonDecreasing | src/components/ui/DepthChart.tsx:447-450 | the greatest value of a non-decreasing sequence is its last |
| DepthChart.MaxCumulativeIsTotal | src/components/ui/DepthChart.tsx:447-450 | a side's greatest cumulative size is its total size |
| DepthChart.ProcessedData | src/components/ui/DepthChart.tsx:413-465 | no data before the first book; then the first 100 levels a side, their ranges, the two cumulative curves and the quantity scale |
| DepthChart.MaxQtyOfTotals | src/components/ui/DepthChart.tsx:447-450 | the quantity scale is the larger of the two sides' total sizes |
| DepthChart.FanIndices | src/components/ui/DepthChart.tsx:592-596 | the fan has 3 (n − 2) indices, each triangle is (0, i, i + 1), and every index is a valid vertex |

## Notes on the source's behaviour

- Deribit checks `prev_change_id` against the stored id and on a mismatch only logs
  a warning (src/lib/api/DeribitWebsocketClient.ts:208-212). It does not re-request
  a snapshot, and it applies the update anyway.
- OKX and Bybit number an update from the stored id plus one
  (src/lib/api/OkxWebSocketClient.ts:197, src/lib/api/BybitWebsocketClient.ts:185).
  No client compares an update with the snapshot's id.
- After five failed attempts a client stops scheduling reconnects and raises no
  further error (src/lib/api/OkxWebSocketClient.ts:114-116).
- The reconnect timer tests `attempts <= max` (src/lib/api/OkxWebSocketClient.ts:224)
  after the close handler has already tested `attempts < max`
  (src/lib/api/OkxWebSocketClient.ts:114). The timer's test therefore always passes
  (`Backoff.ScheduledAttemptReconnects`). For the same reason Binance's 30-second cap
  (src/lib/api/BinanceWebSocketClient.ts:151-154) never applies (`Backoff.CapNeverBinds`).
- `disconnect` does not clear `isConnecting` (src/lib/api/BybitWebsocketClient.ts:218-226).
  A client disconnected while its socket was still connecting ignores the next
  `connect` (`Registry.ConnectAfterDisconnect`).

## Left out

- JSON parsing, `parseFloat` and `parseInt`, and NaN are not modelled. Frames arrive as typed values, and a frame that fails to parse is the `Malformed` message.
- Number-to-text rendering is not modelled: `toFixed`, `toLocaleString` and `toLocaleTimeString`. The format helpers return the value, the number of decimals and the suffix they choose.
- The socket transport, timers and console logging become methods and effect records. `setTimeout` callbacks are invoked explicitly as `OnTimer`, and the subscribe frames are not modelled byte for byte.
- `Date.now()` and `Math.random()` become method parameters (`now`, `id`).
- Case mapping covers ASCII letters only.
- `Utils.GroupBy`: the result is a Dafny map plus the key order. JavaScript's object-key ordering and the coercion of keys to strings are not modelled. Neither are keys that name members of `Object.prototype` (`constructor`, `toString`, `__proto__`): for these, `groups[key] || []` finds the inherited member and the `push` that follows throws.
- `SettingsSlice` and `AnalyticsSlice` patches: a `Partial` field present with the value `undefined` is treated as absent.
- React and Redux wiring is not modelled: hooks, `useCallback`, dispatching, store configuration. The hook's connect and disconnect wrappers (src/hooks/useWebSocket.ts:232-264) only forward to the clients.
- Three.js rendering, materials, and the mutability of `Vector3` values are not modelled. The components' data preparation and bar geometry are modelled.
- `OrderbookBars.SideBars`: the source's guard against non-numeric prices and sizes (src/components/visualization/OrderbookBars.tsx:115-121, 144-150) cannot trigger on reals and is left out.
- `DepthChart.ProcessedData`: the `level?.price || 0` fallbacks for missing levels are left out, because every level in a kept list exists.
- `Utils.Chunk`: requires `size > 0`. With a size of 0 or less the source never terminates (its `for` step does not advance).
- `DepthChart.SortByPrice`: states that the result is sorted and is a permutation of the input. It does not state that the sort is stable (equal prices keep their order), though the insertion sort is.
- `Registry.WebSocketManager.ConnectAll`: states each client's resulting state only when no client object is registered under two venues. `forEach` would visit such an object twice, and a Binance client whose socket cannot be created would then report the failure twice (`Registry.FailedConnectRepeats`).
- `Registry.WebSocketManager.DisconnectAll`: states each client's exact effects only when no client object is registered under two venues. Binance would report a second disconnection (`Registry.DisconnectTwice`). That every client ends disconnected is stated in all cases.
- `BinanceFeed.BinanceClient.OnMessage`: stamps the snapshot and every level with one `now`. The source reads `Date.now()` once for the snapshot and again for each level (src/lib/api/BinanceWebSocketClient.ts:129-141), so its stamps can differ by the time the mapping takes.
- Pure UI components and browser probes are outside the model: `cn`, `generateId`, `isWebGLSupported`, `getWebGLInfo`, `measurePerformance`, `formatPercentage`, `formatTime`.
