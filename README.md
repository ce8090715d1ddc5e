# AirRacer two-player session protocol, in Dafny

This project models the LAN multiplayer core of AirRacer. It has three parts:

- **The room server** (`server.js`). It keeps a registry of six-digit room codes, each mapped to a room. A room holds at most two connections and moves through `waiting`, `countdown`, `racing` and `finished`. The server handles `create_room`, `join_room`, `ready`, `state` and `finish` messages, the countdown timer's callback, and connection close.
- **The browser-side client adapter** (`js/MultiplayerClient.js`). It tracks the connection and the room. Its actions are sends guarded by `connected`, and it dispatches each server message to one optional callback.
- **The custom track registry** (`bkcore/hexgl/CustomTracks.js`). It is a dictionary of track records. `register` fills in per-field defaults with JavaScript `||` semantics.

Files:

- `wrappers.dfy`: the `Option` type.
- `protocol.dfy`: the message vocabulary shared by server and client. Each JSON `type` tag becomes a datatype constructor. A tag that no `case` handles is `UnknownType`.
- `room_code.dfy`: `generateRoomCode`, decimal rendering and parsing, and the six-digit check the lobby applies before joining (`launch.js`).
- `server.dfy`: classes `Conn`, `Room` and `Server`. Each handler is a method, and what it leaves behind is one two-state predicate (`CreateRoomEffect`, `JoinRoomEffect`, `ReadyEffect`, `StateEffect`, `FinishEffect`, `DisconnectEffect`). The handler and the dispatch both ensure that predicate.
  - Every `ws.send` appends `(recipient, message)` to `Server.outbox`.
  - Every `setTimeout` armed by `ready` appends the room it captured to `Server.timers`.
  - `FireNextTimer` runs the oldest timer's callback on that captured room. All timers share one delay, so they fire in the order they were armed.
- `client.dfy`: class `MultiplayerClient`. Sends append to `sent`, and callback invocations append to `fired`.
- `custom_tracks.dfy`: class `TrackRegistry`, the `||` defaults, and the as-written property lookup behind the finding below.

### Behaviour stated as the code has it, not as a protocol description might idealise it

- A second `ready` is not ignored. The code writes `state = countdown` again, sends `countdown_start` again and arms one more timer (server.js:137-165). `HandleReady` states exactly that.
- Room states do not only move forward. A `ready` while racing sets the state back to `countdown` whenever the room holds two players that are all ready (server.js:137-141), and every armed timer sets it to `racing` again, even after `finished`. No monotonicity is claimed.
- A repeated `finish` overwrites `finishTime` and runs the adjudication again (server.js:191-229).
- Timers are never cancelled. `CountdownExpired` acts on its captured room even after that room has left the registry.
- A joiner always gets `playerId` 2, even when the host has left (server.js:112). Player ids are not claimed to be unique.

## Model

| member | source | states |
|---|---|---|
| RoomCode.IsJoinCode | launch.js:212 | the lobby accepts a typed code exactly when it has six characters, all decimal digits |
| RoomCode.CodeNumber | server.js:18 | `floor(100000 + r*900000)` for `0 <= r < 1` lies in 100000..999999 |
| RoomCode.GenerateRoomCode | server.js:17-19 | the code is six decimal digits, does not start with '0', and denotes `CodeNumber(r)`, so it passes the lobby's six-digit check |
| RoomCode.EveryCodeIsGenerated | server.js:17-19 | conversely, every six-digit string without a leading zero is the code of some draw `r` in [0, 1) |
| RoomCode.DecimalStringShape | server.js:18 | `toString()` of a natural number is a non-empty digit string that starts with '0' only for 0 |
| RoomCode.DecimalStringLength | server.js:18 | a number in [10^(k-1), 10^k) renders as exactly k characters |
| RoomCode.DecimalRoundTrip | server.js:18 | parsing a rendered number gives the number back |
| RoomCode.ParseDecimalBounds | server.js:18 | the inverse side of `toString()`, on which `EveryCodeIsGenerated` rests: k digits denote a number below 10^k, and at least 10^(k-1) without a leading zero |
| RoomCode.CanonicalRoundTrip | server.js:18 | the inverse side of `toString()`, on which `EveryCodeIsGenerated` rests: rendering a parsed digit string without a leading zero gives the string back |
| Server.ToEach | server.js:144-148 | a `forEach` send gives one message per player, in player order, each the same message |
| Server.OthersRemovesSender | server.js:248 | `filter(p => p !== ws)` removes every occurrence of the sender and keeps every other player with its multiplicity |
| Server.OpenOthersRecipients | server.js:174-175 | a relay goes only to open players other than the sender, and to every such player |
| Server.CountFinishedExtremes | server.js:197 | the count of finished players is 0 exactly when no one finished, and the room size exactly when all did |
| Server.Reduce | server.js:215-217 | the `reduce` lands on a player with the least key that no later player ties, so ties go to the later player |
| Server.LastMinimumUnique | server.js:215-217 | only one index has that property, so the winner is determined |
| Server.FinishKeysAt | server.js:216 | each player's key is its finish time, with a missing or zero time counted as +infinity |
| Server.AllReady | server.js:137-138 | the room has exactly two players and every one of them is ready |
| Server.WinnerId | server.js:215-222 | `winner.playerId`: the id of the player at the index `Reduce` settles on, over the players' finish keys |
| Server.OpponentTime | server.js:224 | `find(x => x !== p)?.finishTime`: the finish time of the first player other than `p`, or absent when there is none |
| Server.FirstOther | server.js:224 | `find(x => x !== p)` stops at the first index not holding `p`, and at the end when there is none |
| Server.ResultsAt | server.js:219-226 | player k's `race_result` carries the shared winner, its own time and the first other player's time |
| Server.Conn.constructor | server.js:29-31 | a new connection has no id, no room, is not ready, has not finished and is open |
| Server.Room.constructor | server.js:74-78 | a new room holds only the creator, is waiting and has no start time |
| Server.Server.constructor | server.js:14 | the registry starts empty, with nothing sent and no timer armed |
| Server.Server.Lookup | server.js:93 | `rooms.get(code)` finds a room exactly when the code is registered, and finds that code's room |
| Server.Server.SendEach | server.js:144-148 | the send loop appends exactly `ToEach(players, m)` to the outbox |
| Server.Server.SendResults | server.js:219-226 | the result loop appends exactly one `race_result` per player, in player order |
| Server.Server.HandleCreateRoom | server.js:72-90 | `CreateRoomEffect`: registers a fresh waiting room holding only the sender under the generated code, overwriting any room already there; sets the sender's id to 1 and its room code; sends one `room_created(code, 1)`, to the sender only; the sender's ready, finished and open flags stay as they were |
| Server.Server.HandleJoinRoom | server.js:92-127 | `JoinRoomEffect`: unknown code: one `error('房间不存在')` and nothing else changes; two or more players: one `error('房间已满')` and nothing else changes; otherwise the sender is appended with id 2, gets `room_joined(code, 2)`, and the first player after the push gets `opponent_joined`, with the sender's ready, finished and open flags untouched; no room exceeds two players |
| Server.Server.HandleReady | server.js:129-167 | `ReadyEffect`: no room: no-op; otherwise the sender is marked ready, and exactly when two players are all ready, the state becomes countdown, each player gets `countdown_start` and a timer is armed for that room; only the sender's ready flag changes on it |
| Server.Server.CountdownExpired | server.js:153-165 | the captured room becomes racing with start time `now`, and every player then in it gets `race_start(now)` with the same time |
| Server.Server.FireNextTimer | server.js:153-165 | the oldest armed timer is consumed and its callback runs on its captured room |
| Server.Server.HandleState | server.js:169-184 | `StateEffect`: relayed only when the room exists and is racing, to every open player other than the sender, as `opponent_state` with exactly the given position, quaternion and speed; otherwise nothing is sent; the sender and every room stay unchanged |
| Server.Server.HandleFinish | server.js:186-230 | `FinishEffect`: no room: no-op; otherwise records the sender's time and finished flag, and nothing else of the sender, then has exactly the effect `Adjudicate` states |
| Server.Server.Adjudicate | server.js:196-229 | with one finisher, each other player gets `opponent_finished(time)`; with two finishers, or a one-player room, the state becomes finished and every player gets its `race_result` with the last-minimum winner |
| Server.Server.NoticeFirstFinish | server.js:199-209 | with exactly one finisher, every player other than the sender gets `opponent_finished(time)`; otherwise nothing is sent |
| Server.Server.SettleRace | server.js:211-229 | with two finishers, or a one-player room, the state becomes finished and each player gets its `race_result` with the last-minimum winner; otherwise nothing changes |
| Server.Server.HandleDisconnect | server.js:232-255 | `DisconnectEffect`: no room code or no room: no-op; otherwise every other open player gets `opponent_disconnected`, the sender is removed, and the room leaves the registry exactly when it becomes empty |
| Server.Conn.BeginClose | server.js:174 | the closing handshake takes the connection out of the open state, so state relays (server.js:174) and disconnect notices (server.js:240) sent before its `close` event pass it by |
| Server.Server.Close | server.js:42-45 | the connection stops being open and the whole `DisconnectEffect` follows: other open players are told, the sender leaves its room, and the room is deleted exactly when it becomes empty |
| Server.Server.HandleMessage | server.js:52-70 | each known kind has its handler's effect (`CreateRoomEffect`, `JoinRoomEffect`, `ReadyEffect`, `StateEffect`, `FinishEffect`, which also say which fields of the sender stay unchanged); the frame `Touched` lets only the room a `join_room` names, or the sender's own room for `ready` and `finish`, change, and no other connection; the registry invariant holds afterwards; an unknown kind changes nothing |
| Client.DefaultServerUrl | js/MultiplayerClient.js:190-193 | `ws://` + the page hostname + `:3001`, with `localhost` when the hostname is empty |
| Client.CallFor | js/MultiplayerClient.js:134-184 | each message kind invokes the callback of its own slot |
| Client.CallForLosesOnlyPlayerId | js/MultiplayerClient.js:134-184 | a callback invocation determines its message, except the `playerId` of `room_created` and `room_joined` |
| Client.MultiplayerClient.constructor | js/MultiplayerClient.js:6-24 | no socket, not connected, no room, no id, not host, no opponent state, no callback set |
| Client.MultiplayerClient.SetCallback | js/MultiplayerClient.js:15-24 | assigning or clearing one `onX` property changes only that slot |
| Client.MultiplayerClient.Connect | js/MultiplayerClient.js:30-33 | a new socket to the given URL, with a pending promise |
| Client.MultiplayerClient.Opened | js/MultiplayerClient.js:35-39 | the open event sets `connected` and resolves a pending promise |
| Client.MultiplayerClient.Errored | js/MultiplayerClient.js:46-49 | the error event rejects a pending promise with '无法连接到服务器' and changes no field |
| Client.MultiplayerClient.Closed | js/MultiplayerClient.js:41-44 | the close event clears `connected` |
| Client.MultiplayerClient.Disconnect | js/MultiplayerClient.js:63-71 | socket, room code and player id become null and `connected` becomes false; `isHost` and `opponentState` are untouched |
| Client.MultiplayerClient.CreateRoom | js/MultiplayerClient.js:76-80 | when connected, sets `isHost` and sends one `create_room`; otherwise nothing changes |
| Client.MultiplayerClient.JoinRoom | js/MultiplayerClient.js:86-93 | when connected, clears `isHost` and sends `join_room` with the given code unchanged; otherwise nothing changes |
| Client.MultiplayerClient.Ready | js/MultiplayerClient.js:98-101 | sends `ready` exactly when connected |
| Client.MultiplayerClient.SendState | js/MultiplayerClient.js:106-115 | sends `state` with exactly the x, y, z / x, y, z, w components and the speed, exactly when connected and a socket exists |
| Client.MultiplayerClient.SendFinish | js/MultiplayerClient.js:120-126 | sends `finish(time)` exactly when connected |
| Client.MultiplayerClient.HandleMessage | js/MultiplayerClient.js:131-185 | `room_created`/`room_joined` store the code and id; `opponent_state` replaces the opponent view with the message's position, quaternion and speed; no other field changes; the message's own callback fires once if set; an unknown kind changes nothing |
| CustomTracks.Normalize | bkcore/hexgl/CustomTracks.js:23-38 | the stored record: name falls back to the id; falsy images and mesh name become null; missing spawn point, rotation and checkpoints get (0,5,0), (0,0,0) and {[0,1,2],0,2}; zero or missing pixel ratio and scale get 2048/6000 and 1; model path, collision map and height map are copied verbatim |
| CustomTracks.NormalizeFixesNormalized | bkcore/hexgl/CustomTracks.js:25-37 | a record already in normal form is left unchanged by the defaults |
| CustomTracks.NormalizeIdempotent | bkcore/hexgl/CustomTracks.js:23-38 | registering a stored record again stores the same record |
| CustomTracks.GetAsWritten | bkcore/hexgl/CustomTracks.js:47-49 | the lookup on a plain object yields null only for a name that is neither registered nor inherited from `Object.prototype` |
| CustomTracks.GetAsWrittenInheritsToString | bkcore/hexgl/CustomTracks.js:47-49 | an empty registry answers `get("toString")` with a non-null value |
| CustomTracks.TrackRegistry.constructor | bkcore/hexgl/CustomTracks.js:12 | the registry starts empty |
| CustomTracks.TrackRegistry.Register | bkcore/hexgl/CustomTracks.js:18-40 | a falsy id leaves `list` unchanged; otherwise the normalised record replaces any earlier entry under that id and no other entry changes, and every entry stays stored under its own id |
| CustomTracks.TrackRegistry.Get | bkcore/hexgl/CustomTracks.js:47-49 | the stored record, with that id, for a registered id, and null for any other |
| CustomTracks.TrackRegistry.GetList | bkcore/hexgl/CustomTracks.js:55-57 | exactly the registered ids, each once |

## Left out

- Transport. This covers the WebSocket server and socket objects, JSON parsing and its try/catch, logging, and the SIGINT shutdown (server.js:22-50, server.js:257-264). Messages are datatypes, and a malformed message is not modelled.
- Sends to closed sockets. The outbox records every call to `send`, including to a connection that is no longer open. The real library drops such a message.
- The moment the closing handshake starts is a separate event, `Conn.BeginClose`, that the environment may deliver at any time before `Close`. Which messages arrive between the two is not modelled.
- Real time. `Date.now()` is the parameter `now`, and the 5500 ms delay is the `timers` queue. Times are integer milliseconds.
- Randomness. `Math.random()` is the parameter `r` in [0, 1), and the arithmetic uses exact reals. Double-precision rounding is not modelled.
- RoomCode.IsJoinCode does not model the `trim()` the lobby applies first (launch.js:211).
- Join codes that are not strings. A `join_room` whose code is a number or missing is modelled only as a string. Such a code never matches a registered room, so that case is the "not found" path.
- Promises. The `connect` promise is the `connection` field, and a settled promise cannot change. The `try/catch` around `new WebSocket` is left out.
- Stale sockets. The client keeps one socket. Events from a socket that a later `connect` replaced are not distinguished from events of the current one.
- Callbacks. Callbacks are the set of installed slots plus a log of invocations. What a page's callback does is not modelled.
- Three.js values. `sendState` receives plain `Vec3`/`Quat` records. Finish times and positions are numbers without NaN or infinities.
- CustomTracks.TrackRegistry.GetList does not state the order of `Object.keys`, which is insertion order with integer-like keys first.
- CustomTracks.TrackRegistry.Register: the id `__proto__` is treated as an ordinary key. Assigning it on the object literal would instead replace the object's prototype.
- Property types in track configurations are fixed: strings as strings, numbers as reals, objects as records. A falsy value of another type (for example `false` as a name) is not modelled.
- `launch.js`, `js/CameraInput.js`, `bkcore/hexgl/tracks/MyTrack.js` and `bkcore/hexgl/Ships.js` are not part of this model, except the six-digit join-code check from `launch.js`.

## Findings

| source | as written | input that shows it | evidently intended | confidence | as-written member | corrected member |
|---|---|---|---|---|---|---|
| bkcore/hexgl/CustomTracks.js:47-49 | `get(id)` reads `this.list[id]` on a plain object literal, so names inherited from `Object.prototype` are found even though no track has them | `get("toString")` on an empty registry returns the inherited function instead of null | null for every id that was never registered | medium, not executed | CustomTracks.GetAsWrittenInheritsToString | CustomTracks.TrackRegistry.Get |
