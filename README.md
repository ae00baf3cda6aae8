# video-together: playback synchronisation server

This project is a Dafny model of the WebSocket server in `server/index.js`. The server keeps several viewers of one video in step. It holds one shared playback record (`upstreamData`: play/pause status, selected file, last reported position and the instant it was reported). It also holds the set of live connections (`clients`) and a cached list of the files in the video directory (`videoFiles`). Three WebSocket callbacks change this state:

- **connect** registers the connection and broadcasts the new user count. It then sends the newcomer an `init` snapshot whose position is moved forward by the time elapsed since the position was reported.
- **message** answers a heartbeat (`hreatcheck`, spelled as in the code) or a catalog refresh (`updateVideoFiles`) to the sender alone. Any other message updates the record field by field, using JavaScript truthiness tests, and is relayed unchanged to every client, the sender included.
- **close** unregisters the connection and broadcasts the new count to those remaining. When nobody is left, it resets the record.

Files:

- `Protocol.dfy` holds the decoded inbound message, the outbound messages and the truthiness predicates.
- `Registry.dfy` holds the connection set. It is a duplicate-free sequence in insertion order, which is the order in which a JavaScript `Set` is iterated.
- `Fanout.dfy` holds the sends one broadcast performs.
- `Playback.dfy` holds the playback record as a value, the update rule for control messages and the join snapshot.
- `Server.dfy` holds the class `SyncServer`. It keeps the server's state as fields. Its handlers are methods that update those fields in place and append every send to `outbox`.

The clock (`Date.now()`) is a millisecond parameter `now`. The directory listing (`fs.readdirSync`) is a parameter `listing`.

In three places the code behaves in a way a reader might not expect; the model follows the code:

- The join position is moved forward even when the record is paused (server/index.js:42-45). `Playback.PausedJoinIsExtrapolated` shows a record paused at 12 s being offered at 22 s ten seconds later.
- A negative elapsed time is not clamped to zero.
- A frame that is not valid JSON is not recovered from. `JSON.parse` throws inside the handler before anything has changed. The model reports this as `raised` and changes nothing.

## Model

| member | source | states |
|---|---|---|
| Registry.Added | server/index.js:31 | `clients.add`: the result holds exactly the old members plus the new one, stays duplicate-free, keeps the old members as a prefix, and grows by one exactly when the connection was new |
| Registry.Removed | server/index.js:76 | `clients.delete`: the result holds exactly the old members other than the removed one, stays duplicate-free, shrinks by one when it was a member, is unchanged otherwise, and keeps the remaining members in their original order (a subsequence of the old registry) |
| Fanout.Deliveries | server/index.js:91-96 | one broadcast performs one send per member, each send carries the same payload, and no send goes to a non-member |
| Fanout.DeliveredOnce | server/index.js:91-96 | each member of the duplicate-free registry receives the broadcast exactly once, and nobody outside it receives it |
| Fanout.DeliveriesInOrder | server/index.js:93-95 | the k-th send of a broadcast goes to the k-th member in iteration order |
| Playback.JoinPosition | server/index.js:42-45 | a position of zero is offered as zero; otherwise the offered position is at least the reported one once the clock has passed the report instant, and below it if the clock is behind |
| Playback.InitSnapshot | server/index.js:36-46 | the `init` status is play iff the stored status is play; the snapshot carries the stored file name and the cached catalog; a zero stored position is sent as zero |
| Playback.ApplyControl | server/index.js:59-69 | a non-empty `fileName` replaces the file and otherwise it is kept; a non-zero `currentTime` replaces the position and restamps it with `now`, and otherwise both are kept; type "play" or "pause" sets the status, and any other type keeps it |
| Playback.EchoIsIdempotent | server/index.js:59-71 | applying a relayed control message a second time at the same instant leaves the record as the first application left it |
| Playback.InertMessageKeepsRecord | server/index.js:58-70 | a control message with no truthy field and a type other than play/pause leaves the record unchanged |
| Playback.JoinPositionAdvancesWithClock | server/index.js:45 | once a position is set, the offered position grows by exactly one second per 1000 ms of clock time |
| Playback.SeekThenJoin | server/index.js:42-65 | after a message with a non-zero `currentTime` t at instant t0, a client joining at t1 is offered t + (t1 - t0)/1000 |
| Playback.JoinAfterReset | server/index.js:36-46 | a client joining after a reset receives status pause, no file, position zero and the current catalog |
| Playback.JoinMidPlayback | server/index.js:42-45 | a 30 s position reported at 5000 ms is offered as 40 s to a client joining at 15000 ms |
| Playback.PausedJoinIsExtrapolated | server/index.js:39-45 | a paused record at 12 s is offered as 22 s to a client joining 10 s later: the status does not stop the extrapolation |
| Server.SyncServer.constructor | server/index.js:12-26 | the server starts with the initial record (pause, no file, 0, 0), no clients, nothing sent, and the catalog read once from the directory |
| Server.SyncServer.UpdateVideoFiles | server/index.js:22-25 | the catalog becomes the current directory listing and nothing else changes |
| Server.SyncServer.Broadcast | server/index.js:91-96 | the outbox grows by exactly the sends of one broadcast to the current clients; nothing else changes |
| Server.SyncServer.Connect | server/index.js:30-48 | the connection is added; every client, the newcomer included, is sent the new `userCount`; then the newcomer alone is sent the `init` snapshot of the unchanged record and catalog at `now` |
| Server.SyncServer.OnMessage | server/index.js:50-73 | a malformed frame raises and changes nothing; a heartbeat is answered to the sender alone; a refresh replaces the catalog with the listing and sends it to the sender alone; any other message updates the record by `ApplyControl` at `now`, keeps the catalog, and is relayed unchanged to every client; the record never changes on the first two kinds; the registry never changes. It is called only for a registered sender, since the listener is installed after the connection is added (server/index.js:31, 50) and no frame follows its close; it keeps the invariant that an empty registry goes with the initial record |
| Server.SyncServer.Close | server/index.js:75-84 | the connection is removed; only the remaining clients are sent the new `userCount`; the record resets to its initial value exactly when no client remains and is unchanged otherwise; the catalog is unchanged; the invariant that an empty registry goes with the initial record is re-established |

## Left out

- Static serving of `/videos` through Express (server/index.js:28) is plain file-server I/O.
- The real `fs.readdirSync` call (server/index.js:24) is not modelled. The listing is a parameter.
- JSON encoding and decoding (server/index.js:51, 92) are not modelled. A decoded message keeps only the three fields the server reads: `type`, `fileName` and `currentTime`. A relayed message is therefore relayed without any other fields it carried.
- A `fileName` that is not a string, a `currentTime` that is not a number, and a `type` that is not a string are not modelled. Neither is a payload that parses to something other than an object, such as `null`, on which `.type` throws.
- What happens after `JSON.parse` throws is not modelled: the exception leaves the handler, and its effect on the process belongs to the `ws` library.
- The public-IP lookup through axios and the listen callback (server/index.js:98-121) are network I/O.
- The error-logging handlers (server/index.js:87-89, 123-125) are not modelled.
- Transport-level send failures and WebSocket internals are not modelled. Every `send` is taken to succeed and is recorded in `outbox`.
- Playback.JoinPosition: JavaScript's unary `+` coercion and floating-point rounding are not modelled. Positions are exact reals and instants are exact integers.
- Concurrency is not modelled. The Node event loop runs one handler at a time, so each handler is one atomic method.
