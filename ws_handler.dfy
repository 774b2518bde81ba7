/**
 * Signalling router of the server (server/ws/wsHandler.js).
 *
 * Every connected socket is an id with a `readyState` and an outbox: sending
 * a message to a socket appends it to the outbox, and only while the socket
 * is open (readyState 1). An inbound message is what JSON.parse produced:
 * its `type` and `roomId` fields, absent ones as None; a parse failure is
 * None itself.
 *
 * The effect of one inbound message on the registry and on all outboxes is
 * first given as a function on a `Server` value; the class
 * `WebSocketHandler` performs it step by step and is proved to reach the
 * state that function describes.
 */
module Signaling {
  import opened Base
  import opened RoomManagement

  /** WebSocket.OPEN. */
  const Open: int := 1

  const InvalidFormat: string := "Invalid message format"
  const RoomIdRequired: string := "Room ID is required"

  /** A parsed inbound message: `type`, `roomId`, and the remaining fields, which are forwarded untouched. */
  datatype Inbound = Inbound(msgType: Option<string>, roomId: Option<string>, fields: map<string, string>)

  datatype Outbound =
    | Connected(socketId: SocketId)
    | RoomCreated(roomId: RoomId, socketId: SocketId)
    | RoomJoined(roomId: RoomId, socketId: SocketId, userCount: nat)
    | UserJoined(socketId: SocketId, userCount: nat)
    | ErrorReply(error: string)
    | Forwarded(message: Inbound)

  datatype Client = Client(readyState: int, outbox: seq<Outbound>)

  /** The registry and every connected socket. */
  datatype Server = Server(reg: Registry, clients: map<SocketId, Client>)

  datatype Route = ToCreateRoom | ToJoinRoom | ToSignaling | ToFileMessage | Unrecognised

  const SignalingTypes: set<string> := {"offer", "answer", "ice-candidate"}
  const FileMessageTypes: set<string> := {"file-ready", "accept-transfer", "transfer-complete", "transfer-failed"}

  /** The `switch (type)` of handleMessage. */
  function RouteOf(msgType: Option<string>): Route
  {
    if msgType == Some("create-room") then ToCreateRoom
    else if msgType == Some("join-room") then ToJoinRoom
    else if msgType.Some? && msgType.value in SignalingTypes then ToSignaling
    else if msgType.Some? && msgType.value in FileMessageTypes then ToFileMessage
    else Unrecognised
  }

  /** The dispatch is total, and falls to the default case exactly for the types it does not name. */
  lemma RouteOfSpec(msgType: Option<string>)
    ensures RouteOf(msgType) == Unrecognised <==>
      msgType.None? || msgType.value !in {"create-room", "join-room"} + SignalingTypes + FileMessageTypes
    ensures RouteOf(msgType) == ToSignaling <==> msgType.Some? && msgType.value in SignalingTypes
    ensures RouteOf(msgType) == ToFileMessage <==> msgType.Some? && msgType.value in FileMessageTypes
  {
  }

  /** `${type}` in the default case's reply: an absent type prints as "undefined". */
  function TypeText(msgType: Option<string>): string
  {
    if msgType.Some? then msgType.value else "undefined"
  }

  /** `if (!roomId)`: an absent or empty room id is refused. */
  predicate HasRoomId(m: Inbound)
  {
    m.roomId.Some? && m.roomId.value != ""
  }

  /** socket_<time>_<random>: the ids generateSocketId produces, never empty. */
  predicate IsSocketId(id: string)
  {
    |id| > 7 && id[..7] == "socket_"
  }

  // ---------------------------------------------------------------------------
  // Delivery

  /** sendMessage: the message lands in the socket's outbox only if the socket is open. */
  function Post(clients: map<SocketId, Client>, s: SocketId, m: Outbound): map<SocketId, Client>
  {
    if s in clients && clients[s].readyState == Open
    then clients[s := clients[s].(outbox := clients[s].outbox + [m])]
    else clients
  }

  /** Delivery of one message to every open socket among `targets`. */
  function Broadcast(clients: map<SocketId, Client>, targets: set<SocketId>, m: Outbound): map<SocketId, Client>
  {
    map t | t in clients ::
      if t in targets && clients[t].readyState == Open
      then clients[t].(outbox := clients[t].outbox + [m])
      else clients[t]
  }

  /** getRoomUsers(roomId, sender) as a set: the other members of the room. */
  function Recipients(reg: Registry, roomId: RoomId, sender: SocketId): set<SocketId>
  {
    if roomId in reg.rooms then Excluding(reg.rooms[roomId].users, Some(sender)) else {}
  }

  /** A single send is a broadcast to one socket. */
  lemma PostIsBroadcastToOne(clients: map<SocketId, Client>, s: SocketId, m: Outbound)
    ensures Post(clients, s, m) == Broadcast(clients, {s}, m)
  {
  }

  /**
   * broadcastToRoom: no socket appears or disappears and no readyState
   * changes; every open target gets exactly the message appended, and every
   * other socket, closed targets included, is untouched.
   */
  lemma BroadcastSpec(clients: map<SocketId, Client>, targets: set<SocketId>, m: Outbound)
    ensures var c' := Broadcast(clients, targets, m);
      && c'.Keys == clients.Keys
      && (forall t | t in clients :: c'[t].readyState == clients[t].readyState)
      && (forall t | t in clients && t in targets && clients[t].readyState == Open ::
            c'[t].outbox == clients[t].outbox + [m])
      && (forall t | t in clients && (t !in targets || clients[t].readyState != Open) :: c'[t] == clients[t])
  {
  }

  /** The sender never receives its own broadcast (socket ids are never empty). */
  lemma BroadcastSkipsSender(reg: Registry, clients: map<SocketId, Client>, roomId: RoomId, sender: SocketId, m: Outbound)
    requires IsSocketId(sender) && sender in clients
    ensures Broadcast(clients, Recipients(reg, roomId, sender), m)[sender] == clients[sender]
  {
  }

  // ---------------------------------------------------------------------------
  // Handlers as functions

  /** handleCreateRoom: a fresh room is created and the sender joins it. */
  function CreateRoomStep(st: Server, s: SocketId, now: int, draws: seq<Draw>, maxUsers: int): Server
    requires HasFresh(draws, st.reg.rooms.Keys)
  {
    var id := FirstFresh(draws, st.reg.rooms.Keys);
    var (reg', res) := Join(Create(st.reg, id, now), id, s, now, maxUsers);
    var reply := if res.Joined? then RoomCreated(id, s) else ErrorReply(res.error);
    Server(reg', Post(st.clients, s, reply))
  }

  /** handleJoinRoom: the joiner gets room-joined and the other members user-joined. */
  function JoinRoomStep(st: Server, s: SocketId, m: Inbound, now: int, maxUsers: int): Server
  {
    if !HasRoomId(m) then Server(st.reg, Post(st.clients, s, ErrorReply(RoomIdRequired)))
    else
      var roomId := m.roomId.value;
      var (reg', res) := Join(st.reg, roomId, s, now, maxUsers);
      match res
      case JoinFailed(error) => Server(reg', Post(st.clients, s, ErrorReply(error)))
      case Joined(_, userCount, _) =>
        var c1 := Post(st.clients, s, RoomJoined(roomId, s, userCount));
        Server(reg', Broadcast(c1, Recipients(reg', roomId, s), UserJoined(s, userCount)))
  }

  /** handleSignaling and handleFileMessage: touch the room and forward the message as it came. */
  function ForwardStep(st: Server, s: SocketId, m: Inbound, now: int): Server
  {
    if !HasRoomId(m) then Server(st.reg, Post(st.clients, s, ErrorReply(RoomIdRequired)))
    else
      var reg' := Touch(st.reg, m.roomId.value, now);
      Server(reg', Broadcast(st.clients, Recipients(reg', m.roomId.value, s), Forwarded(m)))
  }

  /** handleMessage. A create-room message needs a random stream that yields a free id. */
  function HandleStep(st: Server, s: SocketId, m: Inbound, now: int, draws: seq<Draw>, maxUsers: int): Server
    requires RouteOf(m.msgType) == ToCreateRoom ==> HasFresh(draws, st.reg.rooms.Keys)
  {
    match RouteOf(m.msgType)
    case ToCreateRoom => CreateRoomStep(st, s, now, draws, maxUsers)
    case ToJoinRoom => JoinRoomStep(st, s, m, now, maxUsers)
    case ToSignaling => ForwardStep(st, s, m, now)
    case ToFileMessage => ForwardStep(st, s, m, now)
    case Unrecognised => Server(st.reg, Post(st.clients, s, ErrorReply("Unknown message type: " + TypeText(m.msgType))))
  }

  /** The 'message' listener: a frame that does not parse is answered with one error. */
  function ReceiveStep(st: Server, s: SocketId, parsed: Option<Inbound>, now: int, draws: seq<Draw>, maxUsers: int): Server
    requires parsed.Some? && RouteOf(parsed.value.msgType) == ToCreateRoom ==> HasFresh(draws, st.reg.rooms.Keys)
  {
    match parsed
    case None => Server(st.reg, Post(st.clients, s, ErrorReply(InvalidFormat)))
    case Some(m) => HandleStep(st, s, m, now, draws, maxUsers)
  }

  /** Only the sender's outbox changes, by exactly `reply` when it is open; the registry is left alone. */
  ghost predicate RepliesOnly(st: Server, st': Server, s: SocketId, reply: Outbound)
  {
    && st'.reg == st.reg
    && st'.clients.Keys == st.clients.Keys
    && (forall t | t in st.clients && t != s :: st'.clients[t] == st.clients[t])
    && (s in st.clients && st.clients[s].readyState == Open ==>
          st'.clients[s] == st.clients[s].(outbox := st.clients[s].outbox + [reply]))
    && (s in st.clients && st.clients[s].readyState != Open ==> st'.clients[s] == st.clients[s])
  }

  // ---------------------------------------------------------------------------
  // Properties of the router

  /** An unparseable frame yields one `Invalid message format` error to the sender and nothing else. */
  lemma ParseFailureReplies(st: Server, s: SocketId, now: int, draws: seq<Draw>, maxUsers: int)
    ensures RepliesOnly(st, ReceiveStep(st, s, None, now, draws, maxUsers), s, ErrorReply(InvalidFormat))
  {
  }

  /** An unknown type yields `Unknown message type: <type>` to the sender only. */
  lemma UnknownTypeReplies(st: Server, s: SocketId, m: Inbound, now: int, draws: seq<Draw>, maxUsers: int)
    requires RouteOf(m.msgType) == Unrecognised
    ensures RepliesOnly(st, HandleStep(st, s, m, now, draws, maxUsers), s,
                        ErrorReply("Unknown message type: " + TypeText(m.msgType)))
  {
  }

  /** join-room, signalling and file messages without a room id are refused with an error to the sender only. */
  lemma MissingRoomIdReplies(st: Server, s: SocketId, m: Inbound, now: int, draws: seq<Draw>, maxUsers: int)
    requires RouteOf(m.msgType) in {ToJoinRoom, ToSignaling, ToFileMessage} && !HasRoomId(m)
    ensures RepliesOnly(st, HandleStep(st, s, m, now, draws, maxUsers), s, ErrorReply(RoomIdRequired))
  {
  }

  /**
   * create-room with room for at least one user: a free, well-formed id is
   * chosen; a sender already in a room first leaves it (the room goes when
   * it empties); the new room holds exactly the sender, the sender maps to
   * it, and the sender (alone) is told `room-created`.
   */
  lemma CreateRoomJoinsSender(st: Server, s: SocketId, now: int, draws: seq<Draw>, maxUsers: int)
    requires Consistent(st.reg)
    requires HasFresh(draws, st.reg.rooms.Keys) && maxUsers >= 1
    ensures var id := FirstFresh(draws, st.reg.rooms.Keys);
      var st' := CreateRoomStep(st, s, now, draws, maxUsers);
      var left := if s in st.reg.userRooms then Leave(st.reg, st.reg.userRooms[s], s) else st.reg;
      && IsRoomId(id) && id !in st.reg.rooms
      && st'.reg.rooms == left.rooms[id := Room({s}, now, now)]
      && st'.reg.userRooms == st.reg.userRooms[s := id]
      && RepliesOnly(Server(st'.reg, st.clients), st', s, RoomCreated(id, s))
  {
    var id := FirstFresh(draws, st.reg.rooms.Keys);
    var reg1 := Create(st.reg, id, now);
    var left := if s in st.reg.userRooms then Leave(st.reg, st.reg.userRooms[s], s) else st.reg;
    var left1 := if s in reg1.userRooms && reg1.userRooms[s] != id then Leave(reg1, reg1.userRooms[s], s) else reg1;
    assert left1.rooms == left.rooms[id := Room({}, now, now)] by {
      if s in st.reg.userRooms {
        assert st.reg.userRooms[s] in st.reg.rooms;
        CreateThenLeave(st.reg, id, st.reg.userRooms[s], s, now);
      }
    }
    assert left1.userRooms - {s} == st.reg.userRooms - {s};
    assert {} + {s} == {s};
    var reg2 := AddMember(left1, id, s, now);
    assert Join(reg1, id, s, now, maxUsers) == (reg2, Joined(id, 1, 1 >= maxUsers));
    assert reg2.rooms == left.rooms[id := Room({s}, now, now)];
    assert reg2.userRooms == st.reg.userRooms[s := id];
  }

  /** Leaving a room other than one just created commutes with creating it. */
  lemma CreateThenLeave(reg: Registry, id: RoomId, r: RoomId, s: SocketId, now: int)
    requires r in reg.rooms && id !in reg.rooms
    ensures Leave(Create(reg, id, now), r, s).rooms == Leave(reg, r, s).rooms[id := Room({}, now, now)]
    ensures Leave(Create(reg, id, now), r, s).userRooms == reg.userRooms - {s}
  {
  }

  /**
   * With a cap below one, create-room still leaves the new, empty room
   * behind and answers with the registry's `Room is full`.
   */
  lemma CreateRoomWithoutCapacity(st: Server, s: SocketId, now: int, draws: seq<Draw>, maxUsers: int)
    requires HasFresh(draws, st.reg.rooms.Keys) && maxUsers < 1
    ensures var id := FirstFresh(draws, st.reg.rooms.Keys);
      var st' := CreateRoomStep(st, s, now, draws, maxUsers);
      && st'.reg == Create(st.reg, id, now)
      && RepliesOnly(Server(st'.reg, st.clients), st', s, ErrorReply("Room is full"))
  {
  }

  /**
   * join-room with a room id: a refusal leaves the registry alone and tells
   * the joiner why; a success tells the joiner `room-joined` with the new
   * count and every other open member `user-joined`, and nobody else hears
   * anything.
   */
  lemma JoinRoomReplies(st: Server, s: SocketId, m: Inbound, now: int, maxUsers: int)
    requires HasRoomId(m) && IsSocketId(s) && s in st.clients
    ensures var (reg', res) := Join(st.reg, m.roomId.value, s, now, maxUsers);
      var st' := JoinRoomStep(st, s, m, now, maxUsers);
      && st'.reg == reg'
      && (res.JoinFailed? ==> reg' == st.reg && RepliesOnly(st, st', s, ErrorReply(res.error)))
      && (res.Joined? ==>
            && st'.clients == Broadcast(Post(st.clients, s, RoomJoined(m.roomId.value, s, res.userCount)),
                                        Recipients(reg', m.roomId.value, s), UserJoined(s, res.userCount))
            && st'.clients[s] == Post(st.clients, s, RoomJoined(m.roomId.value, s, res.userCount))[s]
            && (forall t | t in st.clients && t != s && t !in Recipients(reg', m.roomId.value, s) ::
                  st'.clients[t] == st.clients[t])
            && (forall t | t in st.clients && t in Recipients(reg', m.roomId.value, s) && st.clients[t].readyState == Open ::
                  st'.clients[t].outbox == st.clients[t].outbox + [UserJoined(s, res.userCount)]))
  {
    var (reg', res) := Join(st.reg, m.roomId.value, s, now, maxUsers);
    JoinRefusals(st.reg, m.roomId.value, s, now, maxUsers);
    if res.Joined? {
      var c1 := Post(st.clients, s, RoomJoined(m.roomId.value, s, res.userCount));
      BroadcastSkipsSender(reg', c1, m.roomId.value, s, UserJoined(s, res.userCount));
    }
  }

  /**
   * Signalling and file messages with a room id: only that room's
   * lastActivity moves, and the message is forwarded unmodified to the
   * room's other open members. Membership of the sender is not checked:
   * the members hear the message whether or not the sender belongs.
   */
  lemma ForwardDelivers(st: Server, s: SocketId, m: Inbound, now: int, draws: seq<Draw>, maxUsers: int)
    requires RouteOf(m.msgType) in {ToSignaling, ToFileMessage} && HasRoomId(m) && IsSocketId(s)
    ensures var st' := HandleStep(st, s, m, now, draws, maxUsers);
      var roomId := m.roomId.value;
      && st'.reg == Touch(st.reg, roomId, now)
      && st'.clients.Keys == st.clients.Keys
      && (s in st.clients ==> st'.clients[s] == st.clients[s])
      && (forall t | t in st.clients && t != s && roomId in st.reg.rooms && t in st.reg.rooms[roomId].users &&
                     st.clients[t].readyState == Open ::
            st'.clients[t].outbox == st.clients[t].outbox + [Forwarded(m)])
      && (forall t | t in st.clients && (roomId !in st.reg.rooms || t !in st.reg.rooms[roomId].users) ::
            st'.clients[t] == st.clients[t])
  {
    BroadcastSpec(st.clients, Recipients(Touch(st.reg, m.roomId.value, now), m.roomId.value, s), Forwarded(m));
  }

  /** No inbound frame breaks the registry's invariants. */
  lemma ReceivePreservesInvariant(st: Server, s: SocketId, parsed: Option<Inbound>, now: int, draws: seq<Draw>, maxUsers: int)
    requires parsed.Some? && RouteOf(parsed.value.msgType) == ToCreateRoom ==> HasFresh(draws, st.reg.rooms.Keys)
    requires Consistent(st.reg) && WithinCapacity(st.reg, maxUsers)
    ensures var st' := ReceiveStep(st, s, parsed, now, draws, maxUsers);
      Consistent(st'.reg) && WithinCapacity(st'.reg, maxUsers)
  {
    if parsed.Some? {
      var m := parsed.value;
      match RouteOf(m.msgType)
      case ToCreateRoom =>
        var id := FirstFresh(draws, st.reg.rooms.Keys);
        CreateSpec(st.reg, id, now, maxUsers);
        JoinPreservesInvariant(Create(st.reg, id, now), id, s, now, maxUsers);
      case ToJoinRoom =>
        if HasRoomId(m) {
          JoinPreservesInvariant(st.reg, m.roomId.value, s, now, maxUsers);
        }
      case ToSignaling =>
        if HasRoomId(m) {
          TouchSpec(st.reg, m.roomId.value, now, maxUsers);
        }
      case ToFileMessage =>
        if HasRoomId(m) {
          TouchSpec(st.reg, m.roomId.value, now, maxUsers);
        }
      case Unrecognised =>
    }
  }

  // ---------------------------------------------------------------------------
  // The handler object

  class WebSocketHandler {
    const roomManager: RoomManager
    var clients: map<SocketId, Client>

    function State(): Server
      reads this, roomManager
    {
      Server(roomManager.State(), clients)
    }

    ghost predicate Valid()
      reads this, roomManager
    {
      roomManager.Valid()
    }

    constructor (roomManager: RoomManager)
      ensures this.roomManager == roomManager && clients == map[]
    {
      this.roomManager := roomManager;
      clients := map[];
    }

    method SendMessage(s: SocketId, m: Outbound)
      modifies this
      ensures clients == Post(old(clients), s, m)
    {
      if s in clients && clients[s].readyState == Open {
        clients := clients[s := clients[s].(outbox := clients[s].outbox + [m])];
      }
    }

    method SendError(s: SocketId, error: string)
      modifies this
      ensures clients == Post(old(clients), s, ErrorReply(error))
    {
      SendMessage(s, ErrorReply(error));
    }

    /** broadcastToRoom: one send per other member, in the order getRoomUsers lists them. */
    method BroadcastToRoom(roomId: RoomId, sender: SocketId, m: Outbound)
      modifies this
      ensures clients == Broadcast(old(clients), Recipients(roomManager.State(), roomId, sender), m)
    {
      var users := roomManager.GetRoomUsers(roomId, Some(sender));
      ElementsOf(users, Recipients(roomManager.State(), roomId, sender));
      SendToEach(users, m);
    }

    /** The callback of broadcastToRoom's forEach: a known socket that is open gets the message. */
    method SendToMember(u: SocketId, m: Outbound)
      modifies this
      ensures clients == Post(old(clients), u, m)
    {
      if u in clients && clients[u].readyState == Open {
        SendMessage(u, m);
      }
    }

    /** The forEach of broadcastToRoom: each listed socket that is a known, open client gets the message. */
    method SendToEach(users: seq<SocketId>, m: Outbound)
      requires forall a, b :: 0 <= a < b < |users| ==> users[a] != users[b]
      modifies this
      ensures clients == Broadcast(old(clients), Elements(users), m)
    {
      ghost var c0 := clients;
      BroadcastStart(c0, m);
      var i := 0;
      while i < |users|
        invariant 0 <= i <= |users|
        invariant clients == Broadcast(c0, Elements(users[..i]), m)
      {
        BroadcastStep(c0, users, i, m);
        SendToMember(users[i], m);
        i := i + 1;
      }
      assert users[..|users|] == users;
    }

    method HandleCreateRoom(s: SocketId, now: int, draws: seq<Draw>)
      requires HasFresh(draws, roomManager.rooms.Keys)
      modifies this, roomManager
      ensures State() == CreateRoomStep(old(State()), s, now, draws, roomManager.maxUsersPerRoom)
      ensures old(Valid()) ==> Valid()
    {
      var roomId := roomManager.CreateRoom(now, draws);
      var result := roomManager.JoinRoom(roomId, s, now);
      if result.Joined? {
        SendMessage(s, RoomCreated(roomId, s));
      } else {
        SendError(s, result.error);
      }
    }

    method HandleJoinRoom(s: SocketId, m: Inbound, now: int)
      modifies this, roomManager
      ensures State() == JoinRoomStep(old(State()), s, m, now, roomManager.maxUsersPerRoom)
      ensures old(Valid()) ==> Valid()
    {
      if !HasRoomId(m) {
        SendError(s, RoomIdRequired);
        return;
      }
      var roomId := m.roomId.value;
      var result := roomManager.JoinRoom(roomId, s, now);
      if result.Joined? {
        SendMessage(s, RoomJoined(roomId, s, result.userCount));
        BroadcastToRoom(roomId, s, UserJoined(s, result.userCount));
      } else {
        SendError(s, result.error);
      }
    }

    /** handleSignaling; handleFileMessage has the same body. */
    method HandleForward(s: SocketId, m: Inbound, now: int)
      modifies this, roomManager
      ensures State() == ForwardStep(old(State()), s, m, now)
      ensures old(Valid()) ==> Valid()
    {
      if !HasRoomId(m) {
        SendError(s, RoomIdRequired);
        return;
      }
      roomManager.UpdateActivity(m.roomId.value, now);
      BroadcastToRoom(m.roomId.value, s, Forwarded(m));
    }

    method HandleMessage(s: SocketId, m: Inbound, now: int, draws: seq<Draw>)
      requires RouteOf(m.msgType) == ToCreateRoom ==> HasFresh(draws, roomManager.rooms.Keys)
      modifies this, roomManager
      ensures State() == HandleStep(old(State()), s, m, now, draws, roomManager.maxUsersPerRoom)
      ensures old(Valid()) ==> Valid()
    {
      match RouteOf(m.msgType)
      case ToCreateRoom => HandleCreateRoom(s, now, draws);
      case ToJoinRoom => HandleJoinRoom(s, m, now);
      case ToSignaling => HandleForward(s, m, now);
      case ToFileMessage => HandleForward(s, m, now);
      case Unrecognised => SendError(s, "Unknown message type: " + TypeText(m.msgType));
    }

    /** The 'message' listener of handleConnection, after JSON.parse. */
    method OnMessage(s: SocketId, parsed: Option<Inbound>, now: int, draws: seq<Draw>)
      requires parsed.Some? && RouteOf(parsed.value.msgType) == ToCreateRoom ==> HasFresh(draws, roomManager.rooms.Keys)
      modifies this, roomManager
      ensures State() == ReceiveStep(old(State()), s, parsed, now, draws, roomManager.maxUsersPerRoom)
      ensures old(Valid()) ==> Valid()
    {
      match parsed
      case None => SendError(s, InvalidFormat);
      case Some(m) => HandleMessage(s, m, now, draws);
    }

    /** handleConnection: the new, open socket is greeted with its id. */
    method HandleConnection(socketId: SocketId)
      requires IsSocketId(socketId) && socketId !in clients
      modifies this
      ensures clients == old(clients)[socketId := Client(Open, [Connected(socketId)])]
    {
      clients := clients[socketId := Client(Open, [])];
      SendMessage(socketId, Connected(socketId));
      assert [] + [Connected(socketId)] == [Connected(socketId)];
    }

    /** The 'close' listener: the registry forgets the socket, and the socket is no longer a client. */
    method OnClose(socketId: SocketId)
      modifies this, roomManager
      ensures State() == Server(Disconnect(old(roomManager.State()), socketId), old(clients) - {socketId})
      ensures old(Valid()) ==> Valid()
    {
      roomManager.HandleDisconnect(socketId);
      clients := clients - {socketId};
    }
  }

  // ---------------------------------------------------------------------------
  // Helpers for the broadcast loop

  function Elements(users: seq<SocketId>): set<SocketId>
  {
    set u | u in users
  }

  lemma BroadcastStart(clients: map<SocketId, Client>, m: Outbound)
    ensures Broadcast(clients, Elements([]), m) == clients
  {
  }

  /** Sending to the next listed member extends the delivery by that member. */
  lemma BroadcastStep(c0: map<SocketId, Client>, users: seq<SocketId>, i: int, m: Outbound)
    requires 0 <= i < |users|
    requires forall a, b :: 0 <= a < b < |users| ==> users[a] != users[b]
    ensures Broadcast(c0, Elements(users[..i + 1]), m) == Post(Broadcast(c0, Elements(users[..i]), m), users[i], m)
  {
    assert users[..i + 1] == users[..i] + [users[i]];
    assert Elements(users[..i + 1]) == Elements(users[..i]) + {users[i]};
    assert users[i] !in Elements(users[..i]) by {
      forall x | x in users[..i] ensures x != users[i] {
        var a :| 0 <= a < i && users[..i][a] == x;
      }
    }
  }

  lemma ElementsOf(users: seq<SocketId>, targets: set<SocketId>)
    requires forall u :: u in users <==> u in targets
    ensures Elements(users) == targets
  {
  }
}
