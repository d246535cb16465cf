# CollabHub real-time gateway — a Dafny model of its connection layer

CollabHub's document server is one HTTP listener that carries three real-time
protocols. Yjs document synchronisation runs over raw WebSocket upgrades. Chat,
typing indicators, reactions and video signalling run over socket.io rooms.
PeerJS runs under its own path. This project models the server's own logic
around those libraries, in `documentServer.js`:

- `routing.dfy` (module `Routing`): the upgrade filter. It decides which
  upgrades go to the Yjs handler and which are left to socket.io or PeerJS. It
  also derives a document name from the request target (`slice(1)`, then
  `split("?")[0]`). JavaScript's `split` and `join` are modelled as well, with
  their round trip proved.
- `http_endpoint.dfy` (module `HttpEndpoint`): how a plain HTTP request is
  answered. It covers the banner listener and the health listener as written,
  and the corrected handling (see "Findings").
- `heartbeat.dfy` (module `Heartbeat`): the per-connection liveness machine
  (`isAlive`, pong, sweep) as values. It includes lemmas about runs of pongs
  and sweeps.
- `document_sync.dfy` (module `DocumentSync`): the Yjs WebSocket server as
  objects changed in place. `YjsSocket` carries the `isAlive` flag and
  `YjsServer` carries the client set and the open-connection counter. The
  upgrade, connection and close listeners are modelled, and so is the
  heartbeat sweep, a loop over the clients proved against `Heartbeat`.
- `rooms.dfy` (module `Rooms`): the socket.io hub as a value. It holds the
  connected sockets, room membership, each socket's received events in order,
  and the video disconnect listeners. Each chat or video event is one
  transition, with lemmas about fan-out, membership and departures.
- `chat.dfy` (module `Chat`): the socket.io handlers as a class whose fields
  each handler updates. Each handler is proved to make exactly the `Rooms`
  transition for its event.

Library behaviour the model relies on:

- Attaching socket.io (line 70) puts its engine in front of the server's
  `request` listeners. The engine serves every target that starts with
  `/socket.io/` itself. Every other request reaches both `request` listeners,
  in registration order.
- `wss.handleUpgrade` emits `connection` only for a handshake it accepts.
- `ws` tracks a socket in `wss.clients` from the upgrade until its close
  event. `terminate()` only starts closing the socket.
- `socket.to(room).emit(...)` reaches every socket in the room except the
  sender.
- Every socket.io socket starts in a room named after its id.
- On disconnect, socket.io removes the socket from every room and then runs
  its `disconnect` listeners in order.

Behaviour of the code worth knowing:

- `leave-video-room` does not remove the socket from the room. It also does
  not deregister the disconnect listener that its `join-video-room` added. So
  a leave followed by a disconnect announces the peer's departure twice, and
  joining twice registers two listeners
  (`Rooms.LeaveThenDisconnectNotifiesTwice`,
  `Rooms.DisconnectNotifiesPerVideoJoin`).
- A silent Yjs connection is terminated by the sweep. It leaves the client set
  and the counter only when its close event arrives (`YjsServer.OnClose`).
- A target of `/` or `/?x` is accepted with the empty document name
  (`Routing.DocNameSamples`).

## Model

| member | source | states |
|---|---|---|
| `Routing.Split` | documentServer.js:205 | `split` on one character gives at least one piece. No piece contains the separator. The first piece is the longest separator-free prefix of the input. |
| `Routing.JoinSplit` | documentServer.js:205 | Joining the pieces of a split with the separator gives back the original string. |
| `Routing.DocName` | documentServer.js:205 | The document name contains no `?`. It is a prefix of the target without its first character, and it is either all of that tail or is followed in it by `?`. |
| `Routing.DocNameUnique` | documentServer.js:205 | Any string with those three properties is the document name, so they characterise it completely. |
| `Routing.DocNameSamples` | documentServer.js:205 | `/` and `/?room=1` give the empty name. `/doc-A?x=1` gives `doc-A`. |
| `Routing.ReservedUpgrades` | documentServer.js:253-258 | `/socket.io/` and every path under `/peerjs` are not handed to Yjs. Longer paths under `/socket.io/` and `/` are handed to Yjs. |
| `Routing.RoutedDocNameNotReserved` | documentServer.js:250-258 | For a plain origin-form target, the pathname is `/` followed by the document name. So a document the filter passes is never named `socket.io/` and never starts with `peerjs`. |
| `HttpEndpoint.HealthReportUnreachableAsWritten` | documentServer.js:27-63 | As written, no request gets the health report. `GET /health` gets the text banner, and the health listener then writes after the response has ended. |
| `HttpEndpoint.HandleRequestCorrectsOnlyHealth` | documentServer.js:34-63 | The corrected handling answers `/health` with the JSON report of the connection count. Every answer it gives has status 200. On every other target, and on every preflight, it gives the reply of the listeners as written. |
| `HttpEndpoint.PeerJsRequestsLeftAlone` | documentServer.js:34-75 | A request is left to socket.io's engine exactly when its target starts with `/socket.io/`, both as written and as corrected. It is left unanswered for PeerJS exactly when it is not a preflight and its target starts with `/peerjs`. |
| `Heartbeat.SweepSplitsConnections` | documentServer.js:264-269 | After a sweep a connection is marked not alive. One that was not alive is terminated and not pinged. One that was alive keeps its termination state and has one more ping. |
| `Heartbeat.TerminationIsFinal` | documentServer.js:265 | No pong or sweep undoes a termination. |
| `Heartbeat.SilentConnectionTerminated` | documentServer.js:263-270 | From any state, two sweeps with no pong in between terminate the connection. This is within two heartbeat intervals of its last pong. |
| `Heartbeat.PongedConnectionSurvivesOneSweep` | documentServer.js:199-202 | A connection that has just answered is not terminated by the next sweep, and it gets one ping. |
| `Heartbeat.ResponsiveConnectionSurvives` | documentServer.js:263-269 | A connection that answers before every sweep is never terminated. It is pinged exactly once per sweep. |
| `DocumentSync.YjsSocket.constructor` | documentServer.js:199 | A newly accepted connection is alive, not terminated and not yet pinged. |
| `DocumentSync.YjsSocket.OnPong` | documentServer.js:200-202 | A pong marks the connection alive and changes nothing else. |
| `DocumentSync.YjsSocket.Ping` | documentServer.js:268 | A ping adds one to the pings sent. The flags are unchanged. |
| `DocumentSync.YjsSocket.Terminate` | documentServer.js:265 | The connection is terminated. Its flag and ping count are unchanged. |
| `DocumentSync.YjsServer.constructor` | documentServer.js:178 | The server starts with no clients and the counter at 0. |
| `DocumentSync.YjsServer.OnUpgrade` | documentServer.js:250-261 | A new Yjs connection is made exactly when the filter passes the pathname and the WebSocket server accepts the handshake. It is fresh and alive, named after the target, added to the clients, and the counter goes up by one. Otherwise nothing changes. |
| `DocumentSync.YjsServer.OnConnection` | documentServer.js:196-205 | The accepted socket joins the clients. The counter goes up by one. The counter stays equal to opened minus closed, and to the number of clients. |
| `DocumentSync.YjsServer.OnClose` | documentServer.js:243-246 | The socket leaves the clients and the counter goes down by one. The counter stays equal to opened minus closed, so it is never negative. |
| `DocumentSync.YjsServer.Sweep` | documentServer.js:263-270 | Each client's new state is one sweep step from its old state. The client set and the counter are unchanged. |
| `DocumentSync.YjsServer.OnRequest` | documentServer.js:50-63 | In the corrected handling (see Findings), `/health` (other than a preflight) is answered with a JSON report whose count is the number of open Yjs clients. As written, `/health` gets the banner. |
| `DocumentSync.TwoSilentSweeps` | documentServer.js:263-270 | Two sweeps with no pong terminate every client that was open before them. With sweeps every 30 seconds, a silent connection is reclaimed within a minute. |
| `Rooms.ConnectPreservesValid` | documentServer.js:77 | A new socket is connected, is in the room named after it, and has an empty inbox and no video listeners. Every other socket keeps its rooms, inbox and listeners. The hub stays well formed. |
| `Rooms.HandlePreservesValid` | documentServer.js:77-133 | Every chat or video event keeps the hub well formed and leaves the connected set alone. |
| `Rooms.DisconnectPreservesValid` | documentServer.js:113-126 | A disconnected socket is no longer connected, is in no room and has no listeners left. Every other socket keeps its room memberships and listeners, no inbox appears or disappears, and the leaver's own inbox is unchanged. The hub stays well formed. |
| `Rooms.NoEchoToSender` | documentServer.js:87-131 | No event is ever delivered back to the socket that sent it. This covers every chat or video event the socket sends, and the departure notices its disconnect listeners send. |
| `Rooms.NotifyDeparturesSkipsLeaver` | documentServer.js:124-126 | A disconnecting socket's departure listeners leave its own inbox as it was. |
| `Rooms.RelayReachesOtherMembers` | documentServer.js:87-110 | `send_message`, `typing`, `stop_typing` and `send_reaction` append their event once to each other member of the named room. Nobody else gets it, and membership does not change. |
| `Rooms.JoinRoomOnlyJoins` | documentServer.js:81-84 | `join_room` adds the socket to that room only. It sends nothing and registers no departure listener. |
| `Rooms.JoinVideoRoomAnnounces` | documentServer.js:118-127 | `join-video-room` adds the socket to that room and to no other. It sends `user-connected {peerId, userName}` to the room's other members only. It registers one more departure listener on this socket, and no other socket's listeners change. |
| `Rooms.LeaveVideoRoomKeepsMembership` | documentServer.js:129-131 | `leave-video-room` sends `user-disconnected peerId` to the other members only. Membership, the departure listeners and the set of inboxes stay as they were. |
| `Rooms.NotifyDeparturesKeepsRooms` | documentServer.js:124-126 | Running departure listeners changes only inboxes. |
| `Rooms.NotifyDeparturesDelivers` | documentServer.js:124-126 | Each other socket gets, in order, one departure notice per listener whose room it is in. |
| `Rooms.DisconnectNotifiesPerVideoJoin` | documentServer.js:113-126 | On disconnect, every other socket gets one `user-disconnected` per earlier `join-video-room` of the leaver into a room it shares. |
| `Rooms.LeaveThenDisconnectNotifiesTwice` | documentServer.js:118-131 | After join, leave and disconnect, a member that stayed has received `user-connected` once and `user-disconnected` twice. |
| `Chat.ChatServer.constructor` | documentServer.js:70-75 | The chat server starts with no sockets, rooms or deliveries. |
| `Chat.ChatServer.OnConnection` | documentServer.js:77 | A connection makes the `Rooms.Connect` transition. |
| `Chat.ChatServer.EmitToOthers` | documentServer.js:89 | `socket.to(room).emit` appends the event to the inbox of every room member except the sender. |
| `Chat.ChatServer.OnJoinRoom` | documentServer.js:81-84 | The handler makes the `join_room` transition of `Rooms.Handle`. |
| `Chat.ChatServer.OnSendMessage` | documentServer.js:87-90 | The handler makes the `send_message` transition and keeps the hub well formed. |
| `Chat.ChatServer.OnTyping` | documentServer.js:95-97 | The handler makes the `typing` transition. |
| `Chat.ChatServer.OnStopTyping` | documentServer.js:100-102 | The handler makes the `stop_typing` transition. |
| `Chat.ChatServer.OnSendReaction` | documentServer.js:107-110 | The handler makes the `send_reaction` transition. |
| `Chat.ChatServer.OnJoinVideoRoom` | documentServer.js:118-127 | The handler joins the room, announces the peer, and registers the departure listener, as `Rooms.Handle` says. |
| `Chat.ChatServer.OnLeaveVideoRoom` | documentServer.js:129-131 | The handler makes the `leave-video-room` transition. |
| `Chat.ChatServer.OnDisconnect` | documentServer.js:112-126 | The socket leaves every room, then its departure listeners run in order. The result is `Rooms.Disconnect`, and the hub stays well formed. |

## Left out

- MongoDB and Yjs persistence (`MongodbPersistence`, `setPersistence`,
  `bindState`, `writeState`, lines 180-193 and 214-233): library calls and CRDT
  internals whose behaviour is not in this repository.
- `setupWSConnection` (lines 207-212): the y-websocket sync protocol, including
  its own ping timeout, lives in that library.
- The URL parser (`new URL(...)` on line 251): `YjsServer.OnUpgrade` takes the
  pathname as a parameter. Percent-decoding, dot segments and fragments are not
  modelled.
- `DocumentSync.YjsServer.OnUpgrade`: does not model the exception `new URL`
  throws on a Host header it cannot parse (for example `a:b:c`). Nothing
  catches it inside the `upgrade` listener. The handshake checks of `ws` are a
  parameter (`handshakeOk`), and the 400 or 405 reply to a rejected handshake
  is not modelled.
- socket.io's engine: its handling of the targets under `/socket.io/` (polling,
  the client bundle) is not modelled beyond leaving them to it
  (`HttpEndpoint.LeftToSocketIo`).
- Logging, the log file, the mongoose connection, the CORS headers other than
  the content type, and the health report's `uptime` and `memory` figures: I/O
  and process plumbing.
- Timers (`setInterval`, `clearInterval`), the `wss` close listener and the
  signal-driven shutdown (lines 263, 272-274, 288-302): each sweep is a method
  call, and real time is not modelled.
- The PeerJS integration (lines 304-323) and `peerServer.js`: they only
  configure an external server and log its events.
- `models/Message.js`: a declarative schema whose checks run inside Mongoose.
- What the health listener's late write does: `writeHead` on a response that
  has already been sent throws `ERR_HTTP_HEADERS_SENT`, and nothing catches it,
  so the process is likely to stop on every `GET /health`. The model records
  only that the write comes after the response has ended.
- Unanswered upgrades: socket.io's own upgrade listener and its clean-up of
  upgrades nobody handles are not modelled.
- `Rooms.ToOthers`: does not model socket.io's exclusion of every member of the
  room named after the sender's id. A socket that joined another socket's id
  room is therefore treated as a recipient here.
- `Rooms.Handle`: chat payloads are modelled as a room key plus opaque fields.
  Malformed payloads (no `collabId`, a non-object argument that fails
  destructuring) are not modelled.

## Findings

| source | as written | input that shows it | evidently intended | confidence | as-written member | corrected member |
|---|---|---|---|---|---|---|
| documentServer.js:27-63 | Two `request` listeners run on every request outside `/socket.io/`. The first answers every non-PeerJS request (the banner, or the empty preflight reply) and ends the response. Only then does the health listener try to write its JSON. | `GET /health` | `GET /health` answered with `200 application/json` and the connection count | medium, not executed | `HttpEndpoint.AsWritten`, `HttpEndpoint.HealthReportUnreachableAsWritten` | `HttpEndpoint.HandleRequest`, `HttpEndpoint.HandleRequestCorrectsOnlyHealth` (used by `DocumentSync.YjsServer.OnRequest`) |
