# WebRTC signaling relay and room-screen reducers, in Dafny

This project models the two stateful parts of a small WebRTC calling app.

**The signaling server** (`server/index.js`) is a socket.io relay. It keeps two maps, email → socket id and socket id → email. It lets connections join named rooms, announcing each join to the room and echoing it to the joiner, and forwards five kinds of handshake event point to point. `signaling.dfy` (module `SignalingServer`) models it in two forms:

- as a value `State` with a transition function `Handle`, one case per socket event;
- as a class `Relay` whose fields are the same maps, rooms and outbox, with one method per event. Each event-handler method is proved to perform exactly the `Handle` transition; `OnConnection` performs `AddConnection`, and `Send` appends a single emission.

Outbound traffic goes to an outbox, with one `Emission` per `io.to(name).emit(...)`. An emission holds the set of connections the event reaches. `Recipients(st, name)` is that set: the members of the room called `name`, plus the accepted socket whose id is `name`, since every socket sits in the room named by its own id. So an event sent to a name that is neither an accepted socket's id nor a joined room reaches nobody. Disconnects are not modelled, so `connected` is the set of every socket accepted so far, and an id never stops being a valid target. `Inbox(outbox, c)` lists, in order, the events connection `c` receives.

**The room screen** (`client/src/screens/Room.jsx`) keeps three lists: the chat log, the files being received over the data channel, and the files being sent. `room_screen.dfy` (module `RoomScreen`) models each list update as a function from the previous list to the next one. The exception is the chunk branch of the received-file handler. It copies the array and writes into its last slot, so it is a method over an `array`. A progress percentage is `Percent(a, b) = (200a + b) / (2b)`, which is `Math.round(a / b * 100)` done in exact integers.

Where the code and a cleaner relay design differ, the model follows the code:

- `user:joined` is emitted to the room *before* the sender joins it. A connection that re-joins a room it is already in therefore hears its own notice (`RejoinHearsOwnNotice`). It is not sent to "all other members".
- The application never removes anything. It has no disconnect handler, so within the modelled events map entries and room memberships only grow (`RunGrows`). Re-joining under a new email leaves the old email → id entry in place (`RejoinLeavesStaleEmail`).

## Model

| member | source | states |
|---|---|---|
| `SignalingServer.Recipients` | server/index.js:40 | `io.to(name)` reaches every member of the room called `name`, the accepted socket whose id is `name`, and nobody else |
| `SignalingServer.AddConnection` | server/index.js:32 | an accepted socket's id joins the accepted set and nothing else changes |
| `SignalingServer.Join` | server/index.js:35-44 | the `room:join` handler: afterwards email and sender map to each other, the sender is in the room, the accepted set is unchanged, and exactly two emissions follow the old outbox; `JoinRecordsIdentity`, `JoinEmits` and `JoinEntersRoom` state the rest |
| `SignalingServer.Target` | server/index.js:46-65 | the routing field is `toUser` for `user:call` and `to` for the other four point-to-point events |
| `SignalingServer.Relayed` | server/index.js:46-65 | each inbound kind is forwarded as its own outbound kind (both directions), every one but `peer:candidate` carries `from: sender`, and `offer`, `ans` and `candidate` are passed on unchanged |
| `SignalingServer.Handle` | server/index.js:35-65 | the handler table: every event leaves the accepted set alone and emits at least once after the old outbox; `ForwardAppendsOne`, `JoinEmits` and `HandleGrows` state each case |
| `SignalingServer.JoinRecordsIdentity` | server/index.js:35-38 | after `room:join` the email maps to the sender and the sender to the email (last join wins); each map gains exactly that key and every other key keeps its value |
| `SignalingServer.JoinEmits` | server/index.js:40-43 | `room:join` appends exactly two emissions: `user:joined {email, id}` to the room's recipients before the join, then the unmodified `data` as `room:join` to the sender's id |
| `SignalingServer.JoinInbox` | server/index.js:40-43 | what one join adds to any connection's inbox: the notice if that connection was addressed before the join, then the echo if addressed after it |
| `SignalingServer.JoinNoticeReachesSenderIff` | server/index.js:40-42 | the sender receives its own `user:joined` if and only if it already was a member of the room, or the room is named by its own id; a first-time joiner hears nothing about itself |
| `SignalingServer.JoinNoticeReachesPriorMembers` | server/index.js:40-42 | a connection receives the notice if and only if it was in the room before the join, or it is the accepted socket the room's name denotes |
| `SignalingServer.JoinEchoOnlyToSender` | server/index.js:43 | the echo goes to exactly `{sender}` unless someone joined a room named by the sender's id |
| `SignalingServer.JoinEntersRoom` | server/index.js:42 | after the join the room's members are the old members plus the sender, and every other room is unchanged |
| `SignalingServer.JoinIdempotent` | server/index.js:35-44 | repeating an identical join leaves both maps, all rooms and the accepted set as the first join left them |
| `SignalingServer.RejoinHearsOwnNotice` | server/index.js:40-42 | on a repeated join the sender's inbox receives `user:joined` about itself |
| `SignalingServer.RejoinLeavesStaleEmail` | server/index.js:36-38 | re-joining under a second email leaves the first email mapped to the sender, so the two maps are not inverse to each other |
| `SignalingServer.ForwardAppendsOne` | server/index.js:46-65 | each point-to-point event appends one emission to its target's recipients and changes nothing else; each event kind is forwarded as its own outbound kind with the payload unchanged, and `peer:candidate` is forwarded without `from` |
| `SignalingServer.ForwardReachesTargetOnly` | server/index.js:46-65 | if no room is named by the target id, the event reaches the target alone when it was accepted and nobody otherwise; the sender is not reached unless it is the target |
| `SignalingServer.ForwardDeliveredOnlyToTarget` | server/index.js:46-65 | for an accepted target that names no room, the target's inbox gains exactly the relayed event and every other inbox is unchanged |
| `SignalingServer.ForwardToUnknownDropped` | server/index.js:46-65 | an event addressed to an id that is neither an accepted socket nor a room changes no inbox |
| `SignalingServer.HandleWellFormed` | server/index.js:29-66 | every handler run for an accepted sender keeps the invariant: rooms and the id → email map hold only accepted sockets, each map's values are keys of the other map, and emissions reach only accepted sockets (with no disconnect modelled, "accepted" means accepted at some point; a real server's maps also keep ids of closed sockets) |
| `SignalingServer.AddConnectionWellFormed` | server/index.js:32 | a new connection keeps the invariant |
| `SignalingServer.RunWellFormed` | server/index.js:29-66 | any sequence of events from accepted senders keeps the invariant |
| `SignalingServer.HandleGrows` | server/index.js:29-66 | no handler removes a map key, a room member or an emitted event, and none changes the accepted set |
| `SignalingServer.RunGrows` | server/index.js:29-66 | over any sequence of events, map domains, room memberships and the outbox only grow |
| `SignalingServer.RunForwardsKeepsRegistry` | server/index.js:46-65 | any sequence of point-to-point events leaves both maps and all rooms exactly as they were |
| `SignalingServer.InboxOnlyGrows` | server/index.js:29-66 | over any sequence of events, what a connection has received stays a prefix of what it receives later |
| `SignalingServer.TwoJoinScenario` | server/index.js:35-44 | when A and then B join a fresh room, A's inbox is its echo followed by `user:joined` about B, and B's inbox is only its echo |
| `SignalingServer.CallScenario` | server/index.js:46-52 | when A sends `user:call` to B and B answers with `call:accepted`, B's inbox gains exactly `incoming:call {from: A, offer}` and A's exactly `call:accepted {from: B, ans}` |
| `SignalingServer.Relay.constructor` | server/index.js:29-30 | the server starts with both maps empty, no rooms, no sockets and no emissions |
| `SignalingServer.Relay.Send` | server/index.js:40 | `io.to(name).emit` appends one emission addressed to the recipients of `name` |
| `SignalingServer.Relay.OnConnection` | server/index.js:32 | an accepted socket is recorded and the invariant is kept |
| `SignalingServer.Relay.OnRoomJoin` | server/index.js:35-44 | the in-place update performs exactly the `room:join` transition and keeps the invariant |
| `SignalingServer.Relay.OnUserCall` | server/index.js:46-48 | performs exactly the `user:call` transition (`incoming:call {from, offer}` to `toUser`) and keeps the invariant |
| `SignalingServer.Relay.OnCallAccepted` | server/index.js:50-52 | performs exactly the `call:accepted` transition (`call:accepted {from, ans}` to `to`) and keeps the invariant |
| `SignalingServer.Relay.OnPeerCandidate` | server/index.js:54-57 | performs exactly the `peer:candidate` transition (`peer:candidate {candidate}` to `to`) and keeps the invariant |
| `SignalingServer.Relay.OnPeerNegotiation` | server/index.js:59-61 | performs exactly the `peer:negotiation` transition (`peer:negotiation {from, offer}` to `to`) and keeps the invariant |
| `SignalingServer.Relay.OnPeerNegoDone` | server/index.js:63-65 | performs exactly the `peer:nego:done` transition (`peer:nego:final {from, ans}` to `to`) and keeps the invariant |
| `RoomScreen.Percent` | client/src/screens/Room.jsx:67-69 | the result is the integer nearest to 100·part/whole, with halves rounded up, as `Math.round` does |
| `RoomScreen.PercentRange` | client/src/screens/Room.jsx:67-69 | nothing received is 0%, everything received is exactly 100%, and the percentage never exceeds 100 while part ≤ whole |
| `RoomScreen.AddMessage` | client/src/screens/Room.jsx:126-128 | the message `{text, fromSelf}` is appended at the end and every earlier message is kept |
| `RoomScreen.ReceivedMessage` | client/src/screens/Room.jsx:23-28 | a received message is appended with `fromSelf` false and every earlier message is kept |
| `RoomScreen.TotalBytes` | client/src/screens/Room.jsx:65-66 | no contract: the sum of the chunks' byte lengths, which `receivedSize` accumulates; `TotalBytesAppend` and `ReceiveDataConsistent` state its use |
| `RoomScreen.Announces` | client/src/screens/Room.jsx:36 | no contract: the truthiness test on the parsed metadata (a parsed object with a non-empty `fileName` and a non-zero `fileSize`); `ReceiveText` states its effect |
| `RoomScreen.ReceiveText` | client/src/screens/Room.jsx:32-52 | metadata with a truthy name and size appends one entry with no URL, no data, 0 bytes and 0%; a string that fails to parse or lacks either field leaves the list unchanged; earlier entries are kept |
| `RoomScreen.AddChunk` | client/src/screens/Room.jsx:53-75 | a chunk changes only the last entry: its data gains the chunk, its byte count grows by the chunk's length, its progress is recomputed; the length and every other entry are unchanged, and an empty list stays empty |
| `RoomScreen.ReceiveData` | client/src/screens/Room.jsx:30-77 | the whole handler keeps every size positive; non-string, non-binary data, a chunk with no entry and a string that announces no file leave the list unchanged |
| `RoomScreen.ReceiveDataConsistent` | client/src/screens/Room.jsx:30-77 | across one message every entry stays consistent: its byte count equals the total length of its chunks and its progress equals `Percent(receivedSize, size)` |
| `RoomScreen.ReceiveAll` | client/src/screens/Room.jsx:30-77 | the handler applied to messages in arrival order keeps every size positive and never shortens the list |
| `RoomScreen.ReceiveAllConsistent` | client/src/screens/Room.jsx:30-77 | under any sequence of channel messages, each handled once, every entry stays consistent |
| `RoomScreen.ReceiveChunk` | client/src/screens/Room.jsx:55-75 | the array version of the chunk branch returns a new array holding `AddChunk` of the old contents, or the same array when it is empty |
| `RoomScreen.ShowsComplete` | client/src/screens/Room.jsx:528 | no contract: the render step's trigger for building the download, no URL yet and progress exactly 100; `EarlyCompletion` shows it firing early |
| `RoomScreen.EarlyCompletion` | client/src/screens/Room.jsx:528-530 | a consistent 1000-byte entry with 995 bytes received already shows 100%, which is when the download is built |
| `RoomScreen.CompleteOnlyWithAllBytes` | client/src/screens/Room.jsx:528-530 | the intended trigger holds exactly when the chunks total at least the announced size, and it implies progress of at least 100% |
| `RoomScreen.FindIndex` | client/src/screens/Room.jsx:91 | the result is the first index whose name matches, or -1 when no entry has the name |
| `RoomScreen.SendProgress` | client/src/screens/Room.jsx:88-115 | if an entry has the name, the first such entry takes the new byte count and progress, and the length and all other entries are unchanged; otherwise exactly one entry `{name, size: totalBytes, sentBytes, progress}` is appended |
| `RoomScreen.SendProgressRecords` | client/src/screens/Room.jsx:91-111 | after a report, the file's first entry carries exactly the reported byte count and percentage |
| `RoomScreen.SendProgressIdempotent` | client/src/screens/Room.jsx:91-111 | applying the same report twice gives the same list as applying it once |
| `RoomScreen.SelectFile` | client/src/screens/Room.jsx:297-313 | a picked file is appended as `{name, size, sentBytes: 0, progress: 0}` after all earlier entries; with no file the list is unchanged |
| `RoomScreen.DuplicateSelectionShadowed` | client/src/screens/Room.jsx:301-309 | a file picked while an entry with its name exists never receives progress: reports update the earlier entry and the new one stays at 0% |

## Findings

| source | as written | input that shows it | evidently intended | confidence | as-written member | corrected member |
|---|---|---|---|---|---|---|
| client/src/screens/Room.jsx:528 | the download blob is built when `progress === 100`, and progress is a rounded percentage | a 1000-byte file after 995 bytes: `Math.round(99.5)` is 100, so the blob is built with 5 bytes missing and never rebuilt because the URL is then set | build the blob once `receivedSize` reaches `size` | not executed; medium | `RoomScreen.EarlyCompletion` (with `ShowsComplete`) | `RoomScreen.CompleteOnlyWithAllBytes` (with `HasAllBytes`) |

## Left out

- HTTP server creation, CORS settings, dotenv, `server.listen` and all console logging are configuration and I/O.
- The socket.io transport is not modelled: no accepting of sockets beyond recording the id, no network delivery, no reconnection, and no closing of sockets. When a socket closes, socket.io itself removes it from every room, including the room named by its id; that cleanup is left out with the transport. The application's two maps would keep the closed socket's entries, since nothing in the server deletes them. Emitting appends to the outbox; handlers run one at a time, as on Node's single event loop.
- Disconnect is not modelled, and neither is any `user:left` notice; the server registers no handler for either. `connected` therefore only grows.
- A `room:join` payload is modelled with just `email` and `room`, the two fields the lobby sends. Any extra fields the echo would carry back are not represented.
- Payload fields that are absent (`undefined` in JavaScript) are not modelled. Routing fields and emails are always strings, and `io.to(undefined)` is not covered. Neither is a payload that is not an object (an event sent with no data, or with `null`), on which the destructuring at server/index.js:36, 46, 50, 54, 59 and 63 throws inside the listener; `InEvent` cannot express it.
- `SignalingServer.Relay.OnRoomJoin` and the other handler methods require an accepted sender, because socket.io only dispatches events from connected sockets.
- `RoomScreen.ReceiveChunk`: `receivedData` is a value here. In the source, `push` also mutates the chunk array that the previous state shares, and that aliasing is not captured. If React runs the updater twice (as StrictMode does), `push` adds the chunk to the shared array twice while `receivedSize` counts it once; `Consistent` holds only when the updater runs once per chunk.
- `RoomScreen.SendProgress`: requires `totalBytes > 0`. For a zero-byte file JavaScript would store `NaN` as progress, and that case is not modelled.
- `RoomScreen.Percent`: exact integer rounding replaces floating-point `Math.round`, which differs only where float error crosses a .5 boundary.
- Metadata `fileSize` is a natural number. Negative, fractional or string sizes, which JavaScript would also find truthy, are not modelled. Likewise `fileName` is a string: a truthy name of another type (a number, an object) is not modelled. `JSON.parse` is a parameter `parse`, with `None` standing for a thrown error.
- React state and effects, `getUserMedia`, track toggles, `RTCPeerConnection` and the `PeerServices` class are left out; `../services/Peer` is not part of this model. So are Blob and object-URL creation and revocation, the render-time URL update (beyond the trigger condition in `ShowsComplete`) and all JSX.
- `client/src/screens/Lobby.jsx` is UI and routing, and is not part of this model.
- Commented-out duplicate code in both files is ignored.
