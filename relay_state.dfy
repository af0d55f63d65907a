/** The relay's tables and what it sends, as values: the presence table
    `users`, socket.io room membership, and the log of `emit` calls. */
module RelayState {
  import opened JsValues

  /** socket.io connection ids are never empty. */
  type SocketId = s: string | s != "" witness "0"
  type UserId = string
  type RoomId = string

  /** The presence table: user identifier to the socket id of its connection. */
  type Users = map<UserId, SocketId>

  /** Room membership; socket.io drops a room once it has no members. */
  type Rooms = map<RoomId, set<SocketId>>

  /** Messages the server emits. `kind` and `data` of a signal are forwarded
      as received: the TypeScript union of signal kinds is not checked at run time. */
  datatype ServerMsg =
    | IncomingCall(callerId: Option<UserId>, roomId: RoomId)
    | InviteResponse(accepted: bool, roomId: RoomId)
    | RoomJoined(roomId: RoomId)
    | Signal(kind: string, data: string)
    | CallEnded

  /** One `emit` call: the message and the sockets it is addressed to. */
  datatype Emit = Emit(to: set<SocketId>, msg: ServerMsg)

  // ---------------------------------------------------------------------
  // Presence registry

  function Lookup(users: Users, u: UserId): Option<SocketId> {
    if u in users then Some(users[u]) else None
  }

  /** The connection handler: `users[callerId] = socket.id` when the handshake
      carried a truthy `callerId`, overwriting any earlier entry. */
  function Register(users: Users, callerId: Option<UserId>, sid: SocketId): (r: Users)
    ensures Truthy(callerId) ==> Lookup(r, callerId.value) == Some(sid)
    ensures forall u | !(Truthy(callerId) && u == callerId.value) :: Lookup(r, u) == Lookup(users, u)
  {
    if Truthy(callerId) then users[callerId.value := sid] else users
  }

  /** The disconnect handler as written: `delete users[callerId]` whatever
      socket the entry now names. */
  function Unregister(users: Users, callerId: Option<UserId>): (r: Users)
    ensures Truthy(callerId) ==> Lookup(r, callerId.value) == None
    ensures forall u | !(Truthy(callerId) && u == callerId.value) :: Lookup(r, u) == Lookup(users, u)
  {
    if Truthy(callerId) then users - {callerId.value} else users
  }

  /** The disconnect handler as evidently intended: the entry is removed only
      while it still names the disconnecting socket. */
  function UnregisterIfCurrent(users: Users, callerId: Option<UserId>, sid: SocketId): (r: Users)
    ensures Truthy(callerId) && Lookup(users, callerId.value) == Some(sid) ==> Lookup(r, callerId.value) == None
    ensures forall u | Lookup(users, u) != Some(sid) :: Lookup(r, u) == Lookup(users, u)
    ensures r.Keys <= users.Keys
  {
    if Truthy(callerId) && callerId.value in users && users[callerId.value] == sid
    then users - {callerId.value}
    else users
  }

  /** The reconnect race: `older` connects as `u`, `newer` connects as `u`,
      then `older`'s disconnect arrives. Before it `u` resolves to the newer
      socket; after it `u` resolves to nothing, although `newer` is live. */
  lemma {:induction false} StaleDisconnectUnregistersNewer(users: Users, u: UserId, older: SocketId, newer: SocketId)
    requires u != "" && older != newer
    ensures Lookup(Replay(users, [Connected(older, Some(u)), Connected(newer, Some(u))]), u) == Some(newer)
    ensures Lookup(Replay(users, [Connected(older, Some(u)), Connected(newer, Some(u)), Disconnected(older, Some(u))]), u) == None
  {
    ReplayResolvesLastWord(users, [Connected(older, Some(u)), Connected(newer, Some(u))], u);
    ReplayResolvesLastWord(users, [Connected(older, Some(u)), Connected(newer, Some(u)), Disconnected(older, Some(u))], u);
  }

  /** With the ownership check, the older socket's disconnect leaves the newer
      connection registered, and the newer socket's own disconnect removes it. */
  lemma {:induction false} CurrentDisconnectSparesNewer(users: Users, u: UserId, older: SocketId, newer: SocketId)
    requires u != "" && older != newer
    ensures Lookup(UnregisterIfCurrent(Register(users, Some(u), newer), Some(u), older), u) == Some(newer)
    ensures Lookup(UnregisterIfCurrent(Register(users, Some(u), newer), Some(u), newer), u) == None
  {
    var reg := Register(users, Some(u), newer);
    assert Lookup(reg, u) == Some(newer) != Some(older);
  }

  /** A connect or disconnect as the registry sees it. */
  datatype Presence =
    | Connected(sid: SocketId, callerId: Option<UserId>)
    | Disconnected(sid: SocketId, callerId: Option<UserId>)

  function Apply(users: Users, p: Presence): Users {
    match p
    case Connected(sid, c) => Register(users, c, sid)
    case Disconnected(_, c) => Unregister(users, c)
  }

  /** The registry after a sequence of connects and disconnects, in order. */
  function Replay(users: Users, trace: seq<Presence>): Users
    decreases |trace|
  {
    if trace == [] then users else Replay(Apply(users, trace[0]), trace[1..])
  }

  predicate Names(p: Presence, u: UserId) {
    Truthy(p.callerId) && p.callerId.value == u
  }

  /** Reference reading of the registry: the last event naming `u` decides;
      a connect leaves its socket, a disconnect leaves nothing. */
  function LastWord(users: Users, trace: seq<Presence>, u: UserId): Option<SocketId>
    decreases |trace|
  {
    if trace == [] then Lookup(users, u)
    else
      var p := trace[|trace| - 1];
      if Names(p, u) then (if p.Connected? then Some(p.sid) else None)
      else LastWord(users, trace[..|trace| - 1], u)
  }

  lemma {:induction false} ReplaySnoc(users: Users, trace: seq<Presence>, p: Presence)
    ensures Replay(users, trace + [p]) == Apply(Replay(users, trace), p)
    decreases |trace|
  {
    if trace == [] {
      assert [] + [p] == [p];
      assert [p][1..] == [];
    } else {
      assert (trace + [p])[0] == trace[0];
      assert (trace + [p])[1..] == trace[1..] + [p];
      ReplaySnoc(Apply(users, trace[0]), trace[1..], p);
    }
  }

  /** Resolving an identifier after any history gives the socket of its last
      registration, or nothing when its last event was a disconnect. */
  lemma {:induction false} ReplayResolvesLastWord(users: Users, trace: seq<Presence>, u: UserId)
    ensures Lookup(Replay(users, trace), u) == LastWord(users, trace, u)
    decreases |trace|
  {
    if trace != [] {
      var front, p := trace[..|trace| - 1], trace[|trace| - 1];
      assert trace == front + [p];
      ReplaySnoc(users, front, p);
      ReplayResolvesLastWord(users, front, u);
    }
  }

  // ---------------------------------------------------------------------
  // Room membership

  function Members(rooms: Rooms, roomId: RoomId): set<SocketId> {
    if roomId in rooms then rooms[roomId] else {}
  }

  /** `socket.join(roomId)`. */
  function Join(rooms: Rooms, roomId: RoomId, sid: SocketId): (r: Rooms)
    ensures Members(r, roomId) == Members(rooms, roomId) + {sid}
    ensures forall x | x != roomId :: Members(r, x) == Members(rooms, x)
  {
    rooms[roomId := Members(rooms, roomId) + {sid}]
  }

  /** Joining a room twice leaves the same membership as joining it once. */
  lemma {:induction false} JoinIdempotent(rooms: Rooms, roomId: RoomId, sid: SocketId)
    ensures Join(Join(rooms, roomId, sid), roomId, sid) == Join(rooms, roomId, sid)
  {
    var once := Join(rooms, roomId, sid);
    assert Members(once, roomId) + {sid} == Members(once, roomId);
  }

  /** `io.in(roomId).socketsLeave(roomId)`: every member leaves, the room is gone. */
  function Close(rooms: Rooms, roomId: RoomId): (r: Rooms)
    ensures Members(r, roomId) == {}
    ensures forall x | x != roomId :: Members(r, x) == Members(rooms, x)
  {
    rooms - {roomId}
  }

  /** What socket.io does to membership when a socket disconnects: it leaves
      every room, and rooms left empty are dropped. */
  function LeaveAll(rooms: Rooms, sid: SocketId): (r: Rooms)
    ensures forall x :: Members(r, x) == Members(rooms, x) - {sid}
    ensures forall x | x in r :: r[x] != {}
  {
    map x | x in rooms && rooms[x] - {sid} != {} :: rooms[x] - {sid}
  }

  // ---------------------------------------------------------------------
  // Deliveries

  /** The messages addressed to socket `s`, in emit order. */
  function Inbox(outbox: seq<Emit>, s: SocketId): (r: seq<ServerMsg>)
    ensures |r| <= |outbox|
    ensures forall m | m in r :: exists e | e in outbox :: s in e.to && e.msg == m
    decreases |outbox|
  {
    if outbox == [] then []
    else
      var last := outbox[|outbox| - 1];
      Inbox(outbox[..|outbox| - 1], s) + (if s in last.to then [last.msg] else [])
  }

  /** What an emit adds to each socket's inbox: its message, to its addressees only. */
  lemma InboxAfterEmit(outbox: seq<Emit>, e: Emit, s: SocketId)
    ensures Inbox(outbox + [e], s) == Inbox(outbox, s) + (if s in e.to then [e.msg] else [])
  {
    assert (outbox + [e])[..|outbox|] == outbox;
  }

  /** Inboxes distribute over concatenated logs. */
  lemma {:induction false} InboxAppend(a: seq<Emit>, b: seq<Emit>, s: SocketId)
    ensures Inbox(a + b, s) == Inbox(a, s) + Inbox(b, s)
    decreases |b|
  {
    if b != [] {
      var front, e := b[..|b| - 1], b[|b| - 1];
      assert b == front + [e];
      assert a + b == (a + front) + [e];
      InboxAppend(a, front, s);
      InboxAfterEmit(a + front, e, s);
      InboxAfterEmit(front, e, s);
    } else {
      assert a + b == a;
    }
  }
}
