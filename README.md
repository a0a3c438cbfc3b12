# WebRTC video call: signalling relay and call page, in Dafny

This project models the two pieces of logic of a two-party WebRTC video-call
web application that keep state and route messages:

* the **signalling relay** (`src/pages/api/socket.ts`), a socket.io server
  that keeps rooms of connected sessions and handles `join`, `signal`,
  `leave` and `disconnect`, turning each into deliveries of `peers-in-room`,
  `peer-joined`, `signal` and `peer-left` events;
* the **call page** (`src/pages/index.tsx`), whose handlers keep references
  to one RTCPeerConnection, the local camera/microphone stream and the
  remote stream, together with the `joined` flag and the status line, and
  emit `join`, `signal` and `leave` messages.

Files:

* `protocol.dfy` (module `Protocol`): session and room ids, the `signal`
  payload (`type` plus optional `offer`/`answer`/`candidate`), the messages
  a client emits and the events the relay emits.
* `relay.dfy` (module `Relay`): the room table as `map<RoomId,
  set<SessionId>>` with its update functions, the class `Server` whose
  handler methods update the table and append to an outbox of deliveries,
  and lemmas about membership over any history of joins, leaves and
  disconnects.
* `text.dfy` (module `Text`): ECMAScript's `String.prototype.trim`, which
  `joinRoom` applies to the room id, and the decimal rendering of a count.
* `browser.dfy` (module `Browser`): the browser objects the page drives,
  as classes updated in place: a `MediaStream` of `(kind, stopped)` tracks
  and a `PeerConnection` with its senders (by kind), local and remote
  descriptions, accepted remote candidates, `closed` flag, attached
  handlers and a count of `restartIce()` calls.
* `call.dfy` (module `CallController`): the track-attach loop as a function
  `Attach` with its lemmas, the ICE-state-to-status mapping, and the class
  `Page` with one method per handler.
* `scenarios.dfy` (module `Scenarios`): two clients meeting in room "r1",
  worked through the contracts of the relay and the page.

Modelling choices:

* Every handler is one atomic step; the `await` points inside a handler
  are not interleaved with other events.
* `getUserMedia` becomes a parameter `MediaAccess` (granted with a list of
  track kinds, or denied with an error message); `createOffer` and
  `createAnswer` results are parameters; descriptions and candidates are
  opaque strings.
* The relay's outbox and the page's outbox are sequences that handlers
  append to; a broadcast to a set of sessions delivers in an unspecified
  order, and its contract says every recipient gets the event exactly once.
* `joinRoom` sends the **trimmed** room id in `join`, while `leaveRoom`,
  `startCall`, the answer to an offer and `onicecandidate` send the room id
  **as typed** (index.tsx:308 against 323, 396, 116 and 183). The model
  keeps this difference; `Scenarios.SpacedRoomIdScenario`, `Scenarios.SpacedRoomIdOfferScenario` and
  `Scenarios.SpacedRoomIdRelayScenario` show its effect for the room id
  " r1 ": the page joins "r1", its offer goes to the empty room " r1 " and
  reaches nobody, and after `leave` the session is still a member of "r1".
* The browser rejects `addIceCandidate` while no remote description is set
  (an InvalidStateError); the page only catches the error and shows it, so
  such a candidate is lost. There is no queue of early candidates in the
  code, and none in the model.
* ICE restarts are not bounded: every `failed` event calls `restartIce()`
  once more.
* On `disconnect` the handler only logs; socket.io itself drops the
  session from every room. No `peer-left` is sent to the room's other
  members on that path.
* There is no explicit call phase in the code: whether a peer connection
  or a local stream is held (`pc`, `localStream` not null) stands in for
  it, and the model keeps those nullable references.

## Model

| member | source | states |
|---|---|---|
| Relay.AddMember | src/pages/api/socket.ts:32 | after `socket.join(roomId)` the session is a member of the room, with every former member still there; all other rooms are unchanged |
| Relay.JoinIsIdempotent | src/pages/api/socket.ts:32 | joining a room twice gives the same room table as joining once (set insertion) |
| Relay.RemoveMember | src/pages/api/socket.ts:49 | after `socket.leave(roomId)` the session is no longer in the room, the other members remain, other rooms are unchanged, and a room left empty is deleted |
| Relay.RemoveEverywhere | src/pages/api/socket.ts:53-55 | after a disconnect the session is in no room, every other membership is unchanged, and no empty room remains |
| Relay.SignalRecipients | src/pages/api/socket.ts:41-45 | a signal with a non-empty `to` reaches exactly `to` when it is connected and nobody when it is not; a signal without `to` reaches every member of the room except the sender, and never the sender |
| Relay.Broadcast | src/pages/api/socket.ts:44 | a room emit delivers the event exactly once to each recipient and to no one else |
| Relay.Server.constructor | src/pages/api/socket.ts:21-26 | a new relay has no sessions, no rooms and has sent nothing |
| Relay.Server.Connect | src/pages/api/socket.ts:28-29 | a connecting session is added under a fresh id, with no room and no delivery |
| Relay.Server.Join | src/pages/api/socket.ts:31-38 | the joiner becomes a member; `peer-joined {socketId: joiner}` goes exactly once to every other member and not to the joiner; then the joiner alone gets `peers-in-room` listing exactly the other members, never itself |
| Relay.Server.Signal | src/pages/api/socket.ts:40-46 | the deliveries are exactly `signal {from: sender, data}` with `data` unchanged, one per recipient of `SignalRecipients`; membership is unchanged |
| Relay.Server.Leave | src/pages/api/socket.ts:48-51 | the leaver is removed from the room; `peer-left {socketId: leaver}` goes exactly once to each remaining member, and the leaver gets nothing |
| Relay.Server.Disconnect | src/pages/api/socket.ts:53-55 | the session is dropped from the connected set and from every room, and nothing is delivered to anyone |
| Relay.MembershipFollowsHistory | src/pages/api/socket.ts:31-55 | after any sequence of joins, signals, leaves and disconnects, a session is in a room exactly when its latest join, leave or disconnect concerning that room was a join |
| Relay.SignalKeepsRooms | src/pages/api/socket.ts:40-46 | appending a signal to any history leaves the room table as it was |
| Text.Trim | src/pages/index.tsx:301 | `trim()` cuts a whitespace prefix and a whitespace suffix and nothing else; the result neither starts nor ends with whitespace; it is empty exactly when the room id is blank |
| Text.DecimalStringValue | src/pages/index.tsx:56 | the peer count shown in the status is written in decimal digits that denote that count |
| Text.TrimIdempotent | src/pages/index.tsx:308 | trimming the trimmed room id changes nothing |
| Browser.MediaStream.constructor | src/pages/index.tsx:268-271 | a captured stream has one live track per granted kind, in order |
| Browser.MediaStream.StopTrack | src/pages/index.tsx:345 | `track.stop()` marks that track stopped and changes no other track |
| Browser.PeerConnection.constructor | src/pages/index.tsx:176 | a new connection has no senders, no descriptions, no candidates, is open, has the page's handlers and no ICE restart |
| Browser.PeerConnection.AddTrack | src/pages/index.tsx:107 | `addTrack` appends one sender for the track's kind and changes nothing else |
| Browser.PeerConnection.SetLocalDescription | src/pages/index.tsx:392 | the local description becomes the given one; nothing else changes |
| Browser.PeerConnection.SetRemoteDescription | src/pages/index.tsx:95 | the remote description becomes the given one; nothing else changes |
| Browser.PeerConnection.AddIceCandidate | src/pages/index.tsx:134 | the candidate is accepted, and appended, exactly when a remote description is set; otherwise it is rejected and nothing changes |
| Browser.PeerConnection.RestartIce | src/pages/index.tsx:243 | each call adds one ICE restart and changes nothing else |
| Browser.PeerConnection.DetachHandlers | src/pages/index.tsx:331-334 | the page's handlers are removed; nothing else changes |
| Browser.PeerConnection.Close | src/pages/index.tsx:335 | the connection is closed; nothing else changes |
| CallController.AttachExtends | src/pages/index.tsx:104-109 | the attach loop keeps every existing sender in place and only adds senders for kinds of local tracks |
| CallController.AttachCovers | src/pages/index.tsx:377-383 | after the attach loop every local track's kind has a sender |
| CallController.AttachKeepsOnePerKind | src/pages/index.tsx:377-383 | if the connection had at most one sender per kind, it still has after the loop |
| CallController.AttachCoveredIsNoop | src/pages/index.tsx:105-108 | when every local kind already has a sender, the loop adds nothing |
| CallController.AttachTwiceIsOnce | src/pages/index.tsx:104-109 | running the attach loop a second time over the same tracks adds nothing |
| CallController.IceStatusDistinguishes | src/pages/index.tsx:237-246 | two ICE states give the same status only when they are equal or both are `connected`/`completed` |
| CallController.IceStatusConnectedIff | src/pages/index.tsx:239-240 | the status is "Connected successfully!" exactly for `connected` and `completed` |
| CallController.Page.constructor | src/pages/index.tsx:14-24 | the page starts with an empty room id, not joined, status "Idle", and holds no connection and no stream |
| CallController.Page.EnsureLocalStream | src/pages/index.tsx:264-294 | media is requested only when no stream is held; a held stream is returned unchanged without a request; a granted request caches a fresh stream with the granted kinds; a refusal sets "Error accessing camera/microphone", reports the error and leaves no stream |
| CallController.Page.JoinRoom | src/pages/index.tsx:300-317 | a blank room id changes nothing and emits nothing; otherwise exactly one `join` with the trimmed id is emitted, `joined` becomes true, and `getUserMedia` is called only when no stream is held, a granted stream having the granted kinds and a refusal ending in "Error joining room" |
| CallController.Page.AttachLocalTracks | src/pages/index.tsx:376-384 | the connection's senders become `Attach(old senders, local kinds)`; descriptions, candidates and restarts are unchanged, and at most one sender per kind remains |
| CallController.Page.LeaveRoom | src/pages/index.tsx:319-356 | when not joined nothing changes; when joined exactly one `leave` is emitted, `joined` becomes false, the connection is detached, closed and dropped, the remote stream is dropped, and every local track is stopped before the local stream is dropped |
| CallController.Page.StartCall | src/pages/index.tsx:358-407 | when not joined nothing changes; `getUserMedia` is called only when no stream is held; with media refused only the error status changes and the connection is untouched; otherwise the held or a new connection gets the local tracks (deduplicated by kind, a newly acquired stream having the granted kinds) and the offer as local description, keeps its remote description, candidates and restarts, and exactly one `signal` with `to: null` carrying that offer is emitted |
| CallController.Page.OnPeersInRoom | src/pages/index.tsx:55-57 | the status reports how many peers are in the room; nothing else changes |
| CallController.Page.OnPeerJoined | src/pages/index.tsx:59-61 | the status names the peer that joined; nothing else changes |
| CallController.Page.OnPeerLeft | src/pages/index.tsx:63-76 | the held connection is closed and dropped and the remote stream is dropped, while the local stream, `joined` and the outbox stay as they were |
| CallController.Page.OnSignal | src/pages/index.tsx:78-142 | a connection is created if none is held; an offer first acquires media (calling `getUserMedia` only when no stream is held), then without an `offer` payload sets "Error: Invalid offer received", leaves the remote description unset and emits nothing, and otherwise sets the remote description, attaches tracks, sets the answer locally and emits exactly one `answer` signal addressed to the sender; an answer sets the remote description; a candidate is applied only with a remote description set, else the error status is shown; senders and local description change only on an answered offer, candidates only on a candidate, and ICE restarts never |
| CallController.Page.OnIceCandidate | src/pages/index.tsx:179-188 | a discovered candidate is broadcast as one `signal` with `to: null` when the room id is not empty; otherwise nothing is emitted |
| CallController.Page.OnTrack | src/pages/index.tsx:190-202 | the first stream of a track event becomes the remote stream; an event without streams changes nothing |
| CallController.Page.OnIceConnectionStateChange | src/pages/index.tsx:235-247 | the status becomes `IceStatus(state)`; `failed` calls `restartIce()` exactly once and no other state does; senders, descriptions, accepted candidates, media and outbox stay as they were |

## Left out

- Rendering (index.tsx:409-546), the video elements' `srcObject` and `play()`, the statuses set when playback starts or is blocked, and the AbortError retry timer (index.tsx:204-229, 273-284, 349-355): user interface and timers.
- `alert()` dialogs (index.tsx:302, 360): the model returns without any change at those points.
- Creating and closing the socket client (index.tsx:27-42) and all of src/pages/_app.tsx: the socket is taken to exist, so every `socketRef.current` test succeeds.
- Starting the socket.io server and the "already running" test (socket.ts:14-26, 58): process wiring.
- SDP contents, `createOffer`/`createAnswer`, ICE gathering and the STUN configuration (index.tsx:164-176): descriptions and candidates are opaque values given as parameters.
- Browser rejections other than a candidate arriving before the remote description: `setRemoteDescription` in the wrong signalling state, a failing `createOffer`/`createAnswer`, and their caught error statuses are not modelled; the text of a browser error message is represented by a constant.
- Interleaving at `await` points and stale closures: handlers registered under an older `roomId` (the `[roomId]` dependencies at index.tsx:150 and 262) are modelled as reading the current room id.
- socket.io's per-socket rooms: a unicast is modelled as reaching `to` exactly when `to` is a connected session; a client joining or leaving a room whose name equals a session id is not modelled.
- Payloads that lack `roomId`, `to` or `data`: the relay's handlers are modelled on well-typed messages.
- The order of the `peers` array in `peers-in-room`: modelled as a set.
- Logging, `generateRoomId` (index.tsx:296-298), typing into the room-id field, and the `onconnectionstatechange`, `onicegatheringstatechange` and `onnegotiationneeded` callbacks, which only log (index.tsx:249-259).
