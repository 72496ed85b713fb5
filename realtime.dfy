// server/server.js: the socket.io layer of the server. A presence registry
// (`userSocketMap`, last connect wins), group rooms changed by joinGroup /
// leaveGroup, and a stateless relay for the four call-signalling events.
// Everything the server emits is appended to `emitted`, one Delivery per
// `emit` call, naming the connections it reaches.

module Realtime {
  import opened Common
  import opened Records

  type RoomId = string

  /**
   * The payload of a call-signalling event, one constructor per event a
   * client emits (call-user, answer-call, ice-candidate, end-call); the relay
   * forwards it untouched.
   */
  datatype CallSignal = Offer(offer: Sdp) | Answer(answer: Sdp) | Ice(candidate: Candidate) | Hangup

  /** The event name under which the server forwards a signal. */
  function OutboundName(s: CallSignal): string
  {
    match s
    case Offer(_) => "incoming-call"
    case Answer(_) => "call-accepted"
    case Ice(_) => "ice-candidate"
    case Hangup => "call-ended"
  }

  /** The body of a `newGroupMessage` event (groupController.js:85-92). */
  datatype GroupPush = GroupPush(
    groupId: string,
    senderId: UserId,
    text: string,
    image: Option<string>,
    createdAt: nat,
    seen: bool)

  /** What the server emits. */
  datatype OutEvent =
    | OnlineUsers(users: set<UserId>)
    | NewMessage(message: Message)
    | NewGroupMessage(push: GroupPush)
    | Relayed(name: string, from: UserId, signal: CallSignal)

  /** One `emit`: the connections it reaches and the event. */
  datatype Delivery = Delivery(to: set<ConnId>, event: OutEvent)

  /**
   * The history of registry- and room-changing events. A disconnect records the
   * handshake user id of the connection that closed.
   */
  datatype HubEvent =
    | Connected(conn: ConnId, user: UserId)
    | Disconnected(conn: ConnId, user: UserId)
    | Joined(conn: ConnId, room: RoomId)
    | Left(conn: ConnId, room: RoomId)

  /** The identities a registry built from `log` holds: a connect with a user id adds it, any disconnect for that id removes it. */
  ghost function Online(log: seq<HubEvent>): set<UserId>
  {
    if log == [] then {}
    else
      var rest := Online(log[..|log| - 1]);
      match log[|log| - 1]
      case Connected(_, u) => if u != "" then rest + {u} else rest
      case Disconnected(_, u) => rest - {u}
      case Joined(_, _) => rest
      case Left(_, _) => rest
  }

  ghost predicate RegistersAt(log: seq<HubEvent>, i: int, u: UserId)
  {
    0 <= i < |log| && log[i].Connected? && log[i].user == u
  }

  ghost predicate UnregistersAt(log: seq<HubEvent>, j: int, u: UserId)
  {
    0 <= j < |log| && log[j].Disconnected? && log[j].user == u
  }

  /** Some connect for `u` at `i` is followed by no disconnect of any connection of `u`. */
  ghost predicate RegisteredSince(log: seq<HubEvent>, i: int, u: UserId)
  {
    RegistersAt(log, i, u) && forall j :: i < j < |log| ==> !UnregistersAt(log, j, u)
  }

  /**
   * The reported online set is exactly the non-empty identities that connected
   * and have not disconnected since: a disconnect of an older connection of the
   * same identity counts as a disconnect too (server.js:37 deletes by user id).
   */
  lemma {:induction false} OnlineIff(log: seq<HubEvent>, u: UserId)
    ensures u in Online(log) <==> u != "" && exists i :: RegisteredSince(log, i, u)
    decreases |log|
  {
    if log != [] {
      var n := |log| - 1;
      var p := log[..n];
      OnlineIff(p, u);
      assert forall i :: 0 <= i < n ==> log[i] == p[i];
      assert forall j :: 0 <= j < n ==>
        (RegistersAt(log, j, u) <==> RegistersAt(p, j, u)) && (UnregistersAt(log, j, u) <==> UnregistersAt(p, j, u));
      if RegistersAt(log, n, u) && u != "" {
        assert RegisteredSince(log, n, u);
      } else if UnregistersAt(log, n, u) {
        forall i | RegistersAt(log, i, u) ensures !RegisteredSince(log, i, u) { }
      } else if u != "" {
        forall i | RegisteredSince(log, i, u) ensures RegisteredSince(p, i, u) { }
        forall i | RegisteredSince(p, i, u) ensures RegisteredSince(log, i, u) { }
      }
    }
  }

  /** The connections in room `r` after `log`: a join adds, a leave of that room or a disconnect removes. */
  ghost function InRoom(log: seq<HubEvent>, r: RoomId): set<ConnId>
  {
    if log == [] then {}
    else
      var rest := InRoom(log[..|log| - 1], r);
      match log[|log| - 1]
      case Connected(_, _) => rest
      case Disconnected(c, _) => rest - {c}
      case Joined(c, r') => if r' == r then rest + {c} else rest
      case Left(c, r') => if r' == r then rest - {c} else rest
  }

  ghost predicate JoinsAt(log: seq<HubEvent>, i: int, c: ConnId, r: RoomId)
  {
    0 <= i < |log| && log[i] == Joined(c, r)
  }

  ghost predicate QuitsAt(log: seq<HubEvent>, j: int, c: ConnId, r: RoomId)
  {
    0 <= j < |log| && (log[j] == Left(c, r) || (log[j].Disconnected? && log[j].conn == c))
  }

  ghost predicate JoinedSince(log: seq<HubEvent>, i: int, c: ConnId, r: RoomId)
  {
    JoinsAt(log, i, c, r) && forall j :: i < j < |log| ==> !QuitsAt(log, j, c, r)
  }

  /** A room holds exactly the connections that joined it and have neither left it nor disconnected since. */
  lemma {:induction false} InRoomIff(log: seq<HubEvent>, r: RoomId, c: ConnId)
    ensures c in InRoom(log, r) <==> exists i :: JoinedSince(log, i, c, r)
    decreases |log|
  {
    if log != [] {
      var n := |log| - 1;
      var p := log[..n];
      InRoomIff(p, r, c);
      assert forall i :: 0 <= i < n ==> log[i] == p[i];
      assert forall j :: 0 <= j < n ==>
        (JoinsAt(log, j, c, r) <==> JoinsAt(p, j, c, r)) && (QuitsAt(log, j, c, r) <==> QuitsAt(p, j, c, r));
      if JoinsAt(log, n, c, r) {
        assert JoinedSince(log, n, c, r);
      } else if QuitsAt(log, n, c, r) {
        forall i | JoinsAt(log, i, c, r) ensures !JoinedSince(log, i, c, r) { }
      } else {
        forall i | JoinedSince(log, i, c, r) ensures JoinedSince(p, i, c, r) { }
        forall i | JoinedSince(p, i, c, r) ensures JoinedSince(log, i, c, r) { }
      }
    }
  }

  class Hub {
    /** Live connections with their handshake `userId` ("" when the query has none). */
    var sockets: map<ConnId, UserId>
    /** `userSocketMap`: identity to its most recent connection. */
    var userSocketMap: map<UserId, ConnId>
    /** socket.io rooms. */
    var rooms: map<RoomId, set<ConnId>>
    /** Every emit so far, in order. */
    var emitted: seq<Delivery>
    ghost var log: seq<HubEvent>

    ghost predicate Valid()
      reads this
    {
      && "" !in sockets
      && (forall u | u in userSocketMap :: userSocketMap[u] in sockets && sockets[userSocketMap[u]] == u)
      && userSocketMap.Keys == Online(log)
      && (forall r | r in rooms :: rooms[r] <= sockets.Keys)
      && (forall r :: RoomMembers(r) == InRoom(log, r))
    }

    /** The connections in room `r` (`io.to(r)` reaches exactly these). */
    function RoomMembers(r: RoomId): set<ConnId>
      reads this
    {
      if r in rooms then rooms[r] else {}
    }

    /** `userSocketMap[u]`, absent for an identity with no registered connection. */
    function SocketOf(u: UserId): (r: Option<ConnId>)
      reads this
      requires Valid()
      ensures r.Some? <==> u in userSocketMap
      ensures r.Some? ==> r.value in sockets && sockets[r.value] == u && r.value != ""
    {
      if u in userSocketMap then Some(userSocketMap[u]) else None
    }

    constructor ()
      ensures Valid()
      ensures sockets == map[] && userSocketMap == map[] && rooms == map[] && emitted == []
    {
      sockets, userSocketMap, rooms, emitted := map[], map[], map[], [];
      log := [];
    }

    /** The `getOnlineUsers` broadcast: every live connection receives the registry's key set. */
    function OnlineBroadcast(): Delivery
      reads this
    {
      Delivery(sockets.Keys, OnlineUsers(userSocketMap.Keys))
    }

    /** A new connection (server.js:25-32): register a non-empty handshake id, then broadcast. */
    method Connect(c: ConnId, userId: UserId)
      requires Valid() && c != "" && c !in sockets
      modifies this
      ensures Valid()
      ensures sockets == old(sockets)[c := userId]
      ensures userSocketMap == if userId != "" then old(userSocketMap)[userId := c] else old(userSocketMap)
      ensures rooms == old(rooms)
      ensures log == old(log) + [Connected(c, userId)]
      ensures emitted == old(emitted) + [OnlineBroadcast()]
      ensures OnlineBroadcast().event.users == Online(log)
    {
      sockets := sockets[c := userId];
      if userId != "" {
        userSocketMap := userSocketMap[userId := c];
      }
      log := log + [Connected(c, userId)];
      assert log[..|log| - 1] == old(log);
      forall r ensures RoomMembers(r) == InRoom(log, r) { }
      emitted := emitted + [Delivery(sockets.Keys, OnlineUsers(userSocketMap.Keys))];
    }

    /**
     * A connection closes (server.js:35-39): its handshake id is deleted from
     * the registry whatever connection that id now maps to; socket.io drops the
     * connection from every room; then the broadcast.
     */
    method Disconnect(c: ConnId)
      requires Valid() && c in sockets
      modifies this
      ensures Valid()
      ensures sockets == old(sockets) - {c}
      ensures userSocketMap == old(userSocketMap) - {old(sockets)[c]}
      ensures forall r :: RoomMembers(r) == old(RoomMembers(r)) - {c}
      ensures log == old(log) + [Disconnected(c, old(sockets)[c])]
      ensures emitted == old(emitted) + [OnlineBroadcast()]
      ensures OnlineBroadcast().event.users == Online(log)
    {
      var userId := sockets[c];
      userSocketMap := userSocketMap - {userId};
      sockets := sockets - {c};
      rooms := map r | r in rooms :: rooms[r] - {c};
      log := log + [Disconnected(c, userId)];
      assert log[..|log| - 1] == old(log);
      forall r ensures RoomMembers(r) == InRoom(log, r) { }
      emitted := emitted + [Delivery(sockets.Keys, OnlineUsers(userSocketMap.Keys))];
    }

    /** `joinGroup` (server.js:48-51): set insertion, so joining twice is joining once. */
    method JoinGroup(c: ConnId, room: RoomId)
      requires Valid() && c in sockets
      modifies this`rooms, this`log
      ensures Valid()
      ensures RoomMembers(room) == old(RoomMembers(room)) + {c}
      ensures forall r :: r != room ==> RoomMembers(r) == old(RoomMembers(r))
      ensures log == old(log) + [Joined(c, room)]
    {
      rooms := rooms[room := RoomMembers(room) + {c}];
      log := log + [Joined(c, room)];
      assert log[..|log| - 1] == old(log);
      forall r ensures RoomMembers(r) == InRoom(log, r) { }
    }

    /** `leaveGroup` (server.js:53-56): set removal, a no-op when not joined. */
    method LeaveGroup(c: ConnId, room: RoomId)
      requires Valid()
      modifies this`rooms, this`log
      ensures Valid()
      ensures RoomMembers(room) == old(RoomMembers(room)) - {c}
      ensures forall r :: r != room ==> RoomMembers(r) == old(RoomMembers(r))
      ensures log == old(log) + [Left(c, room)]
    {
      rooms := rooms[room := RoomMembers(room) - {c}];
      log := log + [Left(c, room)];
      assert log[..|log| - 1] == old(log);
      forall r ensures RoomMembers(r) == InRoom(log, r) { }
    }

    /**
     * The four relays (server.js:65-97): one delivery of the signal, renamed
     * (call-user to incoming-call, answer-call to call-accepted, end-call to
     * call-ended, ice-candidate kept) and tagged with the sender's handshake
     * id, to the target's registered connection; nothing
     * when the target is not registered. The registry and rooms never change.
     */
    method Relay(c: ConnId, targetId: UserId, signal: CallSignal)
      requires Valid() && c in sockets
      modifies this`emitted
      ensures targetId in userSocketMap ==>
        emitted == old(emitted) + [Delivery({userSocketMap[targetId]}, Relayed(OutboundName(signal), sockets[c], signal))]
      ensures targetId !in userSocketMap ==> emitted == old(emitted)
    {
      var target := SocketOf(targetId);
      if target.Some? {
        emitted := emitted + [Delivery({target.value}, Relayed(OutboundName(signal), sockets[c], signal))];
      }
    }

    /** `io.to(conn).emit(...)`. */
    method EmitTo(conn: ConnId, event: OutEvent)
      modifies this`emitted
      ensures emitted == old(emitted) + [Delivery({conn}, event)]
    {
      emitted := emitted + [Delivery({conn}, event)];
    }

    /** `io.to(room).emit(...)`: whoever is in the room at that moment. */
    method EmitToRoom(room: RoomId, event: OutEvent)
      modifies this`emitted
      ensures emitted == old(emitted) + [Delivery(RoomMembers(room), event)]
    {
      emitted := emitted + [Delivery(RoomMembers(room), event)];
    }
  }

  /**
   * Two connections for one identity, then the older one closes: the identity
   * is no longer registered although its newer connection is live.
   */
  method StaleDisconnectUnregistersLive() returns (newerLive: bool, registered: bool, reported: set<UserId>)
    ensures newerLive && !registered && reported == {}
  {
    var hub := new Hub();
    hub.Connect("s1", "u1");
    hub.Connect("s2", "u1");
    assert hub.userSocketMap == map["u1" := "s2"];
    hub.Disconnect("s1");
    newerLive := "s2" in hub.sockets;
    registered := "u1" in hub.userSocketMap;
    reported := hub.emitted[|hub.emitted| - 1].event.users;
  }
}
