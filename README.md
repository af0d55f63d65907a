# WebRTC calling: signalling relay and client call session

A Dafny model of the two stateful parts of a peer-to-peer audio/video calling
app: the socket.io signalling relay (`server/index.ts`) and the call-session
bookkeeping of the React Native provider
(`reactnative/src/Providers/WebRCTProvider.tsx`).

**Relay.** The relay keeps a presence table `users` (identifier to socket id),
socket.io room membership, and a log of every `emit` it makes. Module
`RelayState` gives these tables as values: registering, unregistering, joining,
closing a room, and `Inbox`, the messages addressed to one socket. It also
holds the lemmas about them. Class `Relay.Server` keeps the live connections
and the handshake `callerId` of each one. It has one method per socket
event: connection, `inviteToCall`, `inviteResponse`, `joinRoom`, `signal`,
`endCall` and `disconnect`. Each method's contract says which tables change,
and for every socket what its inbox gains.

**Client session.** Class `CallSession.Session` holds the provider's refs and
state: the peer connection, the local and remote streams, the other user, the
buffered remote `rtcMessage`, the mic and camera flags and the app state. It
also holds the two persisted storage keys (`pendingCall`, `myId`). Calls into
WebRTC, CallKeep, the socket and the navigator are appended to an effect
log. What a foreign call returns (captured tracks, a generated offer or
answer) is a parameter. A media stream (`CallMedia.MediaStream`) keeps its
tracks in an array. The handlers update that array in place: `stop()`, and
`enabled` for the mic and camera toggles. A peer connection
(`CallMedia.PeerConnection`) keeps the transceivers that `addTrack` creates;
`leave` stops them, then closes the connection.

Handlers registered once in an effect call functions from an earlier render.
The model therefore passes the value of `localStream` (or `localWebcamOn`)
that such a closure sees as an explicit argument. `Session.listenersSee`
holds the stream that the socket listeners saw when they were last
registered.

Behaviour of the code worth stating up front, which the model follows:
- There is no call-state enumeration, no rejection of a second call while
  busy, no epoch guard and no timeout.
- Signal payloads are forwarded without validation, and the signal `type` is
  whatever string arrives.
- Rooms are not limited to two members.
- Disconnect removes the identifier without an ownership check.
- The client and the server use different event names (`call`, `answerCall`,
  `ICEcandidate`, `newCall` on the client; `inviteToCall`, `inviteResponse`,
  `signal` on the server). So no end-to-end flow between the two is modelled.
- Nothing in the provider generates an identifier. On a fresh install the
  empty string is stored as `myId` and kept (`CallSession.FreshInstallKeepsEmptyId`).
  The relay registers nothing for an empty `callerId`.

## Model

| member | source | states |
|---|---|---|
| `RelayState.Register` | server/index.ts:28-31 | a truthy `callerId` now resolves to the new socket, overwriting any earlier entry; every other identifier resolves as before; an absent or empty `callerId` changes nothing |
| `RelayState.Unregister` | server/index.ts:87-89 | as written: a truthy `callerId` no longer resolves, whatever socket it named; every other identifier resolves as before |
| `RelayState.UnregisterIfCurrent` | server/index.ts:87-89 | intended: the entry goes only while it names the disconnecting socket; no identifier naming another socket is touched |
| `RelayState.StaleDisconnectUnregistersNewer` | server/index.ts:85-90 | replaying the trace: `older` connects as `u`, `newer` connects as `u`, `older` disconnects: `u` resolves to `newer` before the last event and to nothing after it |
| `RelayState.CurrentDisconnectSparesNewer` | server/index.ts:85-90 | with the ownership check, the older socket's disconnect leaves `u` on the newer socket, and the newer socket's own disconnect removes it |
| `RelayState.ReplayResolvesLastWord` | server/index.ts:26-90 | after any sequence of connects and disconnects, an identifier resolves to the socket of its last connect, or to nothing if a disconnect naming it came last |
| `RelayState.Join` | server/index.ts:65 | the joiner is added to the room's members; every other room keeps its members |
| `RelayState.JoinIdempotent` | server/index.ts:65 | joining a room again leaves membership as it was after the first join |
| `RelayState.Close` | server/index.ts:80 | after `socketsLeave` the room has no members; other rooms keep theirs |
| `RelayState.LeaveAll` | server/index.ts:85 | on disconnect the socket is in no room, every room keeps its other members, and no empty room is kept |
| `RelayState.Inbox` | server/index.ts:39 | a socket's inbox holds only messages of emits addressed to it, and no more messages than there are emits |
| `RelayState.InboxAfterEmit` | server/index.ts:73 | an emit adds its message to the inbox of each addressee and of no other socket |
| `RelayState.InboxAppend` | server/index.ts:39 | the inbox of a log made of two parts is the inbox of the first part followed by that of the second |
| `Relay.Server.constructor` | server/index.ts:23 | the relay starts with no connections, registrations, rooms or emits |
| `Relay.Server.Connect` | server/index.ts:25-31 | the connection is recorded with its handshake id and the registry is updated by `Register`; rooms and emits are unchanged |
| `Relay.Server.InviteToCall` | server/index.ts:34-42 | exactly one `incomingCall` with the sender's handshake id and the room reaches the callee's socket when the callee is registered, and no socket receives anything otherwise; tables unchanged |
| `Relay.Server.InviteResponse` | server/index.ts:45-61 | exactly one `inviteResponse{accepted, roomId}` reaches the socket registered under the payload's `callerId`, and nothing is sent when it is absent; tables unchanged |
| `Relay.Server.JoinRoom` | server/index.ts:64-68 | the sender becomes a member; `roomJoined` reaches every member that was already in the room and never the joiner |
| `Relay.Server.Signal` | server/index.ts:71-75 | `{type, data}` reaches every member of the room except the sender, unchanged and without the room id; tables unchanged |
| `Relay.Server.EndCall` | server/index.ts:78-82 | `callEnded` reaches every member of the room, the sender included, and the room has no members afterwards |
| `Relay.Server.Disconnect` | server/index.ts:85-90 | as written: the connection is gone, its handshake id is unregistered by `Unregister`, it is in no room, and nothing is sent |
| `Relay.Server.DisconnectIfCurrent` | server/index.ts:85-90 | intended: as `Disconnect`, but every registration naming another socket is kept |
| `CallMedia.WithEnabled` | reactnative/src/Providers/WebRCTProvider.tsx:347-349 | every track of the toggled kind takes the new flag; every other track and every kind and ended state is kept |
| `CallMedia.WithEnabledLastWins` | reactnative/src/Providers/WebRCTProvider.tsx:353-360 | after a toggle all tracks of that kind agree with the flag, and of two toggles only the last one matters |
| `CallMedia.Ended` | reactnative/src/Providers/WebRCTProvider.tsx:312 | every track is ended and nothing else about it changes |
| `CallMedia.EndedIdempotent` | reactnative/src/Providers/WebRCTProvider.tsx:310-318 | stopping already stopped tracks changes nothing |
| `CallMedia.Stopped` | reactnative/src/Providers/WebRCTProvider.tsx:314-316 | every transceiver is stopped and keeps its kind |
| `CallMedia.SendersFor` | reactnative/src/Providers/WebRCTProvider.tsx:225-227 | `addTrack` creates one running transceiver per track, in track order |
| `CallMedia.MediaStream.StopTracks` | reactnative/src/Providers/WebRCTProvider.tsx:312 | the loop leaves the stream's tracks equal to `Ended` of what they were |
| `CallMedia.MediaStream.SetEnabled` | reactnative/src/Providers/WebRCTProvider.tsx:356-358 | the loop leaves the stream's tracks equal to `WithEnabled` of what they were |
| `CallMedia.PeerConnection.constructor` | reactnative/src/Providers/WebRCTProvider.tsx:279-285 | a new peer connection is open and has no transceivers |
| `CallMedia.PeerConnection.AddTracks` | reactnative/src/Providers/WebRCTProvider.tsx:225-227 | the stream's tracks are added in order, one transceiver each |
| `CallMedia.PeerConnection.StopTransceivers` | reactnative/src/Providers/WebRCTProvider.tsx:314-316 | the loop stops every transceiver and leaves the connection open |
| `CallMedia.PeerConnection.Close` | reactnative/src/Providers/WebRCTProvider.tsx:317 | the connection is closed and its transceivers are kept |
| `CallSession.LeaveEffects` | reactnative/src/Providers/WebRCTProvider.tsx:322-333 | `endCall` is emitted exactly when `isSocket` is false, with the other user as it was; CallKeep's `endCall` happens exactly when a truthy room id is given; each happens at most once, `endCall` first, nothing else is asked for, and the last effect is navigating home |
| `CallSession.CameraSwitches` | reactnative/src/Providers/WebRCTProvider.tsx:336-342 | each video track gets exactly one camera switch, in track order, and no other track does |
| `CallSession.Session.constructor` | reactnative/src/Providers/WebRCTProvider.tsx:69-80 | no streams, no peer connection, no other user, mic and camera on, the storage keys as persisted |
| `CallSession.Session.SyncMyId` | reactnative/src/Providers/WebRCTProvider.tsx:81-89 | afterwards the stored key and `myId` agree: a truthy stored id is adopted, otherwise the current id is stored |
| `CallSession.Session.AppStateChanged` | reactnative/src/Providers/WebRCTProvider.tsx:91-94 | only `appState` changes |
| `CallSession.Session.SetOtherUserId` | reactnative/src/Providers/WebRCTProvider.tsx:367-369 | only the other user changes |
| `CallSession.Session.ReleaseMedia` | reactnative/src/Providers/WebRCTProvider.tsx:312-320 | the seen stream's tracks are ended, the old peer connection's transceivers are stopped and it is closed, and peer connection and both streams are cleared; it works with none of them present |
| `CallSession.Session.Leave` | reactnative/src/Providers/WebRCTProvider.tsx:310-334 | peer connection, both streams and the other user are cleared from any state; the effects are `LeaveEffects`; every other field is unchanged |
| `CallSession.Session.CallEnded` | reactnative/src/Providers/WebRCTProvider.tsx:153-156 | a remotely ended call tears down without emitting `endCall` or ending a CallKeep call; the old peer connection's transceivers are stopped and it is closed; only the tracks of the stream its listener saw are stopped |
| `CallSession.Session.CallEndedReleasingCurrent` | reactnative/src/Providers/WebRCTProvider.tsx:153-156 | intended: as `CallEnded` (old peer connection stopped and closed), and the current local stream's tracks are ended |
| `CallSession.Session.CallKeepEndCall` | reactnative/src/Providers/WebRCTProvider.tsx:118-123 | rejecting from CallKeep tears down, emits `endCall` with no room id and navigates home; the old peer connection's transceivers are stopped and it is closed, but no local track is stopped |
| `CallSession.Session.CallKeepEndCallReleasingCurrent` | reactnative/src/Providers/WebRCTProvider.tsx:118-123 | intended: as `CallKeepEndCall` (old peer connection stopped and closed), and the current local stream's tracks are ended |
| `CallSession.Session.EnsurePeerConnection` | reactnative/src/Providers/WebRCTProvider.tsx:237-239 | an existing peer connection is kept; a new, open, empty one is created only when there is none |
| `CallSession.Session.SetupMediaStream` | reactnative/src/Providers/WebRCTProvider.tsx:208-233 | media is requested with video exactly when the seen camera flag is on; captured tracks become the local stream as captured and are added to the peer connection if one exists; a failed capture changes nothing else |
| `CallSession.Session.SetupMediaStreamInSync` | reactnative/src/Providers/WebRCTProvider.tsx:208-233 | intended: as `SetupMediaStream`, with the mic flag applied to the captured audio tracks, so the mic indicator and the tracks agree |
| `CallSession.Session.ProcessCall` | reactnative/src/Providers/WebRCTProvider.tsx:235-252 | an existing peer connection is never replaced and keeps its open or closed state, a new one is open; media is captured, an offer created and set, and `call` emitted to the other user with the offer and room |
| `CallSession.Session.ProcessAccept` | reactnative/src/Providers/WebRCTProvider.tsx:254-276 | an existing peer connection is never replaced and keeps its open or closed state, a new one is open; the buffered remote message is applied, an answer created and set, `answerCall` emitted to the caller, and the in-call screen opened |
| `CallSession.Session.AnswerCall` | reactnative/src/Providers/WebRCTProvider.tsx:107-116 | the pending key changes exactly when it equals the answered id; then the call is accepted (video requested, as the listener sees the initial camera flag) and the key is cleared, the captured tracks become the local stream and one running transceiver per track is appended to the (kept or new) peer connection, which is never closed by the accept; on a mismatch nothing changes, including the peer connection's transceivers and closed state |
| `CallSession.Session.NewCall` | reactnative/src/Providers/WebRCTProvider.tsx:158-183 | the offer, the caller and the pending room are recorded; CallKeep rings exactly when the app is not `active`, and the receiving screen opens otherwise |
| `CallSession.Session.CallAnswered` | reactnative/src/Providers/WebRCTProvider.tsx:185-191 | the answer is buffered and applied only when a peer connection exists; the in-call screen opens |
| `CallSession.Session.RemoteIceCandidate` | reactnative/src/Providers/WebRCTProvider.tsx:193-201 | a remote candidate is applied exactly when a peer connection exists, and is dropped otherwise |
| `CallSession.Session.OnIceCandidate` | reactnative/src/Providers/WebRCTProvider.tsx:287-301 | a discovered candidate is emitted to the other user; the end-of-candidates event emits nothing |
| `CallSession.Session.OnTrack` | reactnative/src/Providers/WebRCTProvider.tsx:304-308 | the event's stream becomes the remote stream and nothing else changes |
| `CallSession.Session.ToggleMic` | reactnative/src/Providers/WebRCTProvider.tsx:353-360 | nothing changes without a local stream; otherwise the flag flips and every audio track takes the new value, so the mic indicator is true to the tracks |
| `CallSession.Session.ToggleCamera` | reactnative/src/Providers/WebRCTProvider.tsx:344-351 | nothing changes without a local stream; otherwise the flag flips and every video track takes the new value |
| `CallSession.Session.SwitchCameraTracks` | reactnative/src/Providers/WebRCTProvider.tsx:336-342 | exactly one camera switch per video track of the local stream, in track order (via `CameraSwitches`), none without a stream |

## Findings

| source | as written | input that shows it | evidently intended | confidence | as-written member | corrected member |
|---|---|---|---|---|---|---|
| server/index.ts:85-90 | `delete users[callerId]` without checking that the entry still names this socket | sockets `s1` then `s2` connect as `alice`; the server then handles `s1`'s disconnect: `alice` no longer resolves, although `s2` is live | remove the entry only while it is `socket.id` | high; not executed | `RelayState.StaleDisconnectUnregistersNewer`, `Relay.Server.Disconnect` (scenario `Relay.ReconnectRace`) | `RelayState.CurrentDisconnectSparesNewer`, `Relay.Server.DisconnectIfCurrent` |
| reactnative/src/Providers/WebRCTProvider.tsx:208-233 | newly captured audio tracks start enabled, while `localMicOn` lives on across calls | mute during call 1, hang up, start call 2: the indicator shows the mic off and the new audio track is live | apply `localMicOn` to the captured audio tracks | medium; not executed | `CallSession.Session.SetupMediaStream` (scenario `CallSession.MutedMicReturnsLive`) | `CallSession.Session.SetupMediaStreamInSync` |
| reactnative/src/Providers/WebRCTProvider.tsx:118-156 | the `callEnded` and CallKeep `endCall` listeners call a `leave` from the render that registered them, whose `localStream` is the earlier value (null) | a call is ended by the other side: the local stream is dropped and its camera track is never stopped | stop the tracks of the current local stream | medium; not executed | `CallSession.Session.CallEnded`, `CallSession.Session.CallKeepEndCall` (scenario `CallSession.RemoteHangUpLeavesTrackLive`) | `CallSession.Session.CallEndedReleasingCurrent`, `CallSession.Session.CallKeepEndCallReleasingCurrent` |

The handler members model the code as written. The corrected members sit
beside them with the intended property proved, and the scenarios use both.

## Left out

- HTTP and Express setup, CORS, the listening port and `server.listen` (server/index.ts:1-12, 93-97): process startup, not relay logic.
- Console logging everywhere: it has no effect on state.
- socket.io transport, reconnection and delivery: an emit is modelled as a message addressed to a set of sockets.
- socket.io's own per-socket rooms: `io.to(socketId)` is modelled as direct addressing. A room id equal to some socket id, which socket.io would treat as that socket's room, is not modelled.
- `Relay.Server.Connect`: requires a socket id not already live, which socket.io guarantees.
- `Relay.Server.Disconnect`: leaving every room is socket.io behaviour that the handler does not show; the model states it as an explicit step.
- The JavaScript object behind `users` (inherited keys such as `__proto__`) and a handshake `callerId` given as an array: they are not modelled.
- The `setTimeout` delays before navigating, and `navigate` only forwarding when the navigator is ready: each handler is one atomic step that logs `Navigate`.
- `inCallManager`, CallKeep `setup`/`setAvailable`, listener removal and the socket effect's cleanup `disconnect`: these are side effects outside the session record.
- The socket effect reconnecting with the new `myId`: this is transport. Only the re-registration of its listeners (`listenersSee`) is modelled.
- WebRTC semantics (SDP, ICE servers, `getUserMedia` constraints beyond audio/video): offers, answers and captured tracks are parameters.
- `CallSession.Session.ProcessCall`: a rejected `createOffer` or `setLocalDescription` is caught and logged, so `call` is not emitted. The model treats both calls as succeeding.
- `CallSession.Session.ProcessAccept`: a rejected `setRemoteDescription`, `createAnswer` or `setLocalDescription` aborts the rest of the function. The model treats them as succeeding.
- `CallSession.Session.AnswerCall`: a rejected `processAccept` would leave the pending key in place. The model does not capture this, for the same reason.
- `CallSession.Session.OnTrack`: an event with no stream (`streams[0]` undefined) is given as a null stream.
- Track aliasing: the tracks a peer connection sends and the stream's tracks are the same objects, but the model records only a transceiver's kind and stopped state.
- React's deferred state updates: `setLocalMicOn` and similar setters take effect at the next render. The model applies them at once, and the closures that matter are passed explicitly.
- `useWebRTC` outside a provider, the screens, navigation, `App.tsx` and the headless task: these are UI.
- Malformed payloads: every handler is given a payload object with the declared fields, typed as strings. A missing payload, which makes the destructuring throw (server/index.ts:36, 47, 64, 71, 78), and a missing field, which is forwarded as `undefined` (for example `io.to(undefined)` or `{type: undefined}`), are not modelled; neither are client handlers reading `data.*` from an arbitrary payload (reactnative/src/Providers/WebRCTProvider.tsx:158-201).
