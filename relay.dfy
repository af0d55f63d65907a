/** The signalling relay: one process-wide registry, and one handler per
    socket event. Each handler runs as one atomic step. */
module Relay {
  import opened JsValues
  import opened RelayState

  class Server {
    /** Live connections, each with the `callerId` of its handshake query
        (the value every handler of that socket closes over). */
    var sockets: map<SocketId, Option<UserId>>
    /** The presence table `users`. */
    var users: Users
    var rooms: Rooms
    /** Every `emit` made so far, in order. */
    var outbox: seq<Emit>

    /** The registry only names live sockets registered under that name, and
        rooms hold live sockets only and are never kept empty. */
    ghost predicate Valid()
      reads this
    {
      && (forall u | u in users :: u != "" && users[u] in sockets && sockets[users[u]] == Some(u))
      && (forall x | x in rooms :: rooms[x] != {} && rooms[x] <= sockets.Keys)
    }

    constructor ()
      ensures Valid()
      ensures sockets == map[] && users == map[] && rooms == map[] && outbox == []
    {
      sockets, users, rooms, outbox := map[], map[], map[], [];
    }

    /** `io.on("connection")`: record the connection and register its
        `callerId`, if truthy. */
    method Connect(sid: SocketId, callerId: Option<UserId>)
      requires Valid() && sid !in sockets
      modifies this
      ensures Valid()
      ensures sockets == old(sockets)[sid := callerId]
      ensures users == Register(old(users), callerId, sid)
      ensures rooms == old(rooms) && outbox == old(outbox)
    {
      sockets := sockets[sid := callerId];
      users := Register(users, callerId, sid);
    }

    /** `inviteToCall`: one `incomingCall` carrying the sender's handshake id,
        to the callee's socket when the callee is registered; nothing otherwise. */
    method InviteToCall(sid: SocketId, calleeId: UserId, roomId: RoomId)
      requires Valid() && sid in sockets
      modifies this
      ensures Valid()
      ensures sockets == old(sockets) && users == old(users) && rooms == old(rooms)
      ensures calleeId in users ==> outbox == old(outbox) + [Emit({users[calleeId]}, IncomingCall(sockets[sid], roomId))]
      ensures calleeId !in users ==> outbox == old(outbox)
      ensures forall s ::
                Inbox(outbox, s) == Inbox(old(outbox), s) + (if Lookup(users, calleeId) == Some(s) then [IncomingCall(sockets[sid], roomId)] else [])
    {
      if calleeId in users {
        var e := Emit({users[calleeId]}, IncomingCall(sockets[sid], roomId));
        forall s ensures Inbox(outbox + [e], s) == Inbox(outbox, s) + (if s in e.to then [e.msg] else []) {
          InboxAfterEmit(outbox, e, s);
        }
        outbox := outbox + [e];
      }
    }

    /** `inviteResponse`: the answer goes to the socket registered under the
        payload's `callerId`; the forwarded message drops that field. */
    method InviteResponse(sid: SocketId, callerId: UserId, accepted: bool, roomId: RoomId)
      requires Valid() && sid in sockets
      modifies this
      ensures Valid()
      ensures sockets == old(sockets) && users == old(users) && rooms == old(rooms)
      ensures callerId in users ==> outbox == old(outbox) + [Emit({users[callerId]}, ServerMsg.InviteResponse(accepted, roomId))]
      ensures callerId !in users ==> outbox == old(outbox)
      ensures forall s ::
                Inbox(outbox, s) == Inbox(old(outbox), s) + (if Lookup(users, callerId) == Some(s) then [ServerMsg.InviteResponse(accepted, roomId)] else [])
    {
      if callerId in users {
        var e := Emit({users[callerId]}, ServerMsg.InviteResponse(accepted, roomId));
        forall s ensures Inbox(outbox + [e], s) == Inbox(outbox, s) + (if s in e.to then [e.msg] else []) {
          InboxAfterEmit(outbox, e, s);
        }
        outbox := outbox + [e];
      }
    }

    /** `joinRoom`: the sender becomes a member; `roomJoined` goes to every
        other member and never back to the joiner. */
    method JoinRoom(sid: SocketId, roomId: RoomId)
      requires Valid() && sid in sockets
      modifies this
      ensures Valid()
      ensures sockets == old(sockets) && users == old(users)
      ensures rooms == Join(old(rooms), roomId, sid)
      ensures outbox == old(outbox) + [Emit(Members(old(rooms), roomId) - {sid}, RoomJoined(roomId))]
      ensures forall s ::
                Inbox(outbox, s) == Inbox(old(outbox), s) + (if s in Members(old(rooms), roomId) && s != sid then [RoomJoined(roomId)] else [])
    {
      // `socket.to(roomId)` after the join: the members other than the joiner
      var e := Emit(Members(rooms, roomId) - {sid}, RoomJoined(roomId));
      rooms := Join(rooms, roomId, sid);
      forall s ensures Inbox(outbox + [e], s) == Inbox(outbox, s) + (if s in e.to then [e.msg] else []) {
        InboxAfterEmit(outbox, e, s);
      }
      outbox := outbox + [e];
    }

    /** `signal`: `{type, data}` verbatim to every member of the room but the
        sender; the room id is not forwarded. */
    method Signal(sid: SocketId, roomId: RoomId, kind: string, data: string)
      requires Valid() && sid in sockets
      modifies this
      ensures Valid()
      ensures sockets == old(sockets) && users == old(users) && rooms == old(rooms)
      ensures outbox == old(outbox) + [Emit(Members(rooms, roomId) - {sid}, ServerMsg.Signal(kind, data))]
      ensures forall s ::
                Inbox(outbox, s) == Inbox(old(outbox), s) + (if s in Members(rooms, roomId) && s != sid then [ServerMsg.Signal(kind, data)] else [])
    {
      var e := Emit(Members(rooms, roomId) - {sid}, ServerMsg.Signal(kind, data));
      forall s ensures Inbox(outbox + [e], s) == Inbox(outbox, s) + (if s in e.to then [e.msg] else []) {
        InboxAfterEmit(outbox, e, s);
      }
      outbox := outbox + [e];
    }

    /** `endCall`: `callEnded` to every member, the sender included, then
        every member leaves and the room is gone. */
    method EndCall(sid: SocketId, roomId: RoomId)
      requires Valid() && sid in sockets
      modifies this
      ensures Valid()
      ensures sockets == old(sockets) && users == old(users)
      ensures rooms == Close(old(rooms), roomId)
      ensures outbox == old(outbox) + [Emit(Members(old(rooms), roomId), CallEnded)]
      ensures forall s ::
                Inbox(outbox, s) == Inbox(old(outbox), s) + (if s in Members(old(rooms), roomId) then [CallEnded] else [])
    {
      var e := Emit(Members(rooms, roomId), CallEnded);
      forall s ensures Inbox(outbox + [e], s) == Inbox(outbox, s) + (if s in e.to then [e.msg] else []) {
        InboxAfterEmit(outbox, e, s);
      }
      outbox := outbox + [e];
      rooms := Close(rooms, roomId);
    }

    /** `disconnect` as written: the socket's handshake id is deleted from the
        registry without checking that it still names this socket. socket.io
        itself removes the socket from every room. Nobody is notified. */
    method Disconnect(sid: SocketId)
      requires Valid() && sid in sockets
      modifies this
      ensures Valid()
      ensures sockets == old(sockets) - {sid}
      ensures users == Unregister(old(users), old(sockets)[sid])
      ensures rooms == LeaveAll(old(rooms), sid)
      ensures outbox == old(outbox)
    {
      forall u | u in users && users[u] == sid ensures Truthy(sockets[sid]) && sockets[sid].value == u { }
      users := Unregister(users, sockets[sid]);
      rooms := LeaveAll(rooms, sid);
      sockets := sockets - {sid};
    }

    /** `disconnect` with the ownership check the registry needs: a superseded
        socket leaves the newer registration in place. */
    method DisconnectIfCurrent(sid: SocketId)
      requires Valid() && sid in sockets
      modifies this
      ensures Valid()
      ensures sockets == old(sockets) - {sid}
      ensures users == UnregisterIfCurrent(old(users), old(sockets)[sid], sid)
      ensures forall u | u in old(users) && old(users)[u] != sid :: u in users && users[u] == old(users)[u]
      ensures rooms == LeaveAll(old(rooms), sid)
      ensures outbox == old(outbox)
    {
      forall u | u in users && users[u] == sid ensures Truthy(sockets[sid]) && sockets[sid].value == u { }
      users := UnregisterIfCurrent(users, sockets[sid], sid);
      rooms := LeaveAll(rooms, sid);
      sockets := sockets - {sid};
    }
  }

  /** A client that reconnects under the same identifier before the server
      notices its old socket is gone becomes unreachable under the handler as
      written, and stays reachable under the ownership check. */
  method ReconnectRace()
  {
    var as_written := new Server();
    as_written.Connect("s1", Some("alice"));
    as_written.Connect("s2", Some("alice"));
    as_written.Disconnect("s1");
    assert "s2" in as_written.sockets && "alice" !in as_written.users;

    var fixed := new Server();
    fixed.Connect("s1", Some("alice"));
    fixed.Connect("s2", Some("alice"));
    fixed.DisconnectIfCurrent("s1");
    assert fixed.users["alice"] == "s2";
  }
}
