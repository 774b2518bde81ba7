/**
 * In-memory room registry of the signalling server (server/rooms/roomManager.js).
 *
 * Two maps are kept: `rooms` (room id to its member set and timestamps) and
 * `userRooms` (socket id to the room it is in). The transitions are first
 * given as functions on a `Registry` value, and the lemmas about them state
 * what the registry promises; the class `RoomManager` then performs them in
 * place, one map update at a time, and each of its methods is proved to
 * produce the state the corresponding function describes.
 *
 * Time is a parameter (`now`, in milliseconds); the random characters of a
 * room id are a parameter too (a sequence of draws).
 */
module RoomManagement {
  import opened Base

  type RoomId = string
  type SocketId = string

  const Alphabet: string := "ABCDEFGHIJKLMNOPQRSTUVWXYZ0123456789"
  const RoomIdLength: nat := 6
  const DefaultRoomTimeoutMs: int := 7200000
  const DefaultMaxUsersPerRoom: int := 2

  /** One draw of `Math.floor(Math.random() * chars.length)`. */
  newtype CharIndex = i: int | 0 <= i < 36

  /** The six draws that make one candidate room id. */
  type Draw = d: seq<CharIndex> | |d| == RoomIdLength witness [0, 0, 0, 0, 0, 0]

  predicate IsRoomId(id: string)
  {
    |id| == RoomIdLength && forall i :: 0 <= i < |id| ==> id[i] in Alphabet
  }

  /** The candidate spelled by a draw. */
  function IdOf(d: Draw): (id: RoomId)
    ensures IsRoomId(id)
    ensures forall i :: 0 <= i < RoomIdLength ==> id[i] == Alphabet[d[i]]
  {
    seq(RoomIdLength, i requires 0 <= i < RoomIdLength => Alphabet[d[i]])
  }

  /** Some draw of the random stream spells an id that is not taken. */
  predicate HasFresh(draws: seq<Draw>, taken: set<RoomId>)
  {
    exists k :: 0 <= k < |draws| && IdOf(draws[k]) !in taken
  }

  /**
   * The id the do-while retry loop settles on: the first candidate of the
   * stream that is not taken. It is well formed, free, and every earlier
   * candidate was taken.
   */
  function FirstFresh(draws: seq<Draw>, taken: set<RoomId>): (id: RoomId)
    requires HasFresh(draws, taken)
    ensures IsRoomId(id) && id !in taken
    ensures exists k :: FirstFreeAt(draws, taken, k) && id == IdOf(draws[k])
    decreases |draws|
  {
    if IdOf(draws[0]) !in taken then
      assert FirstFreeAt(draws, taken, 0);
      IdOf(draws[0])
    else
      FreshInTail(draws, taken);
      var id := FirstFresh(draws[1..], taken);
      FirstFreeShift(draws, taken, id);
      id
  }

  /** Draw k spells a free candidate and every earlier draw a taken one. */
  predicate FirstFreeAt(draws: seq<Draw>, taken: set<RoomId>, k: int)
  {
    0 <= k < |draws| && IdOf(draws[k]) !in taken && forall j :: 0 <= j < k ==> IdOf(draws[j]) in taken
  }

  lemma FreshInTail(draws: seq<Draw>, taken: set<RoomId>)
    requires HasFresh(draws, taken) && IdOf(draws[0]) in taken
    ensures HasFresh(draws[1..], taken)
  {
    var k :| 0 <= k < |draws| && IdOf(draws[k]) !in taken;
    assert draws[1..][k - 1] == draws[k];
  }

  lemma FirstFreeShift(draws: seq<Draw>, taken: set<RoomId>, id: RoomId)
    requires |draws| > 0 && IdOf(draws[0]) in taken
    requires exists k :: FirstFreeAt(draws[1..], taken, k) && id == IdOf(draws[1..][k])
    ensures exists k :: FirstFreeAt(draws, taken, k) && id == IdOf(draws[k])
  {
    var k :| FirstFreeAt(draws[1..], taken, k) && id == IdOf(draws[1..][k]);
    assert forall j :: 1 <= j < k + 1 ==> draws[j] == draws[1..][j - 1];
    assert FirstFreeAt(draws, taken, k + 1);
  }

  datatype Room = Room(users: set<SocketId>, createdAt: int, lastActivity: int)

  datatype Registry = Registry(rooms: map<RoomId, Room>, userRooms: map<SocketId, RoomId>)

  datatype JoinResult = Joined(roomId: RoomId, userCount: nat, isFull: bool) | JoinFailed(error: string)

  // ---------------------------------------------------------------------------
  // Invariants

  /** `userRooms` is exactly the inverse of the membership sets. */
  ghost predicate Consistent(reg: Registry)
  {
    && (forall s | s in reg.userRooms ::
          reg.userRooms[s] in reg.rooms && s in reg.rooms[reg.userRooms[s]].users)
    && (forall r, s | r in reg.rooms && s in reg.rooms[r].users ::
          s in reg.userRooms && reg.userRooms[s] == r)
  }

  /** No occupied room holds more than the cap. */
  ghost predicate WithinCapacity(reg: Registry, maxUsers: int)
  {
    forall r | r in reg.rooms :: reg.rooms[r].users == {} || |reg.rooms[r].users| <= maxUsers
  }

  /** Every room has at least one member. */
  ghost predicate NoEmptyRoom(reg: Registry)
  {
    forall r | r in reg.rooms :: reg.rooms[r].users != {}
  }

  /** Every room other than `except` has at least one member. */
  ghost predicate NoEmptyRoomExcept(reg: Registry, except: RoomId)
  {
    forall r | r in reg.rooms && r != except :: reg.rooms[r].users != {}
  }

  // ---------------------------------------------------------------------------
  // Transitions as functions

  function Create(reg: Registry, id: RoomId, now: int): Registry
  {
    reg.(rooms := reg.rooms[id := Room({}, now, now)])
  }

  function Leave(reg: Registry, roomId: RoomId, s: SocketId): Registry
  {
    if roomId !in reg.rooms then reg
    else
      var room := reg.rooms[roomId];
      var users := room.users - {s};
      var rooms := if users == {} then reg.rooms - {roomId}
                   else reg.rooms[roomId := room.(users := users)];
      Registry(rooms, reg.userRooms - {s})
  }

  /** handleDisconnect: `if (roomId)` also skips an empty-string room id. */
  function Disconnect(reg: Registry, s: SocketId): Registry
  {
    if s in reg.userRooms && reg.userRooms[s] != "" then Leave(reg, reg.userRooms[s], s) else reg
  }

  function Touch(reg: Registry, roomId: RoomId, now: int): Registry
  {
    if roomId in reg.rooms then reg.(rooms := reg.rooms[roomId := reg.rooms[roomId].(lastActivity := now)])
    else reg
  }

  /**
   * joinRoom as the source writes it. The room object is fetched before the
   * socket leaves its previous room; when that previous room is this very
   * room and the socket was its only member, leaveRoom deletes the room from
   * the map, and the member is then added to the detached object only.
   */
  function JoinAsWritten(reg: Registry, roomId: RoomId, s: SocketId, now: int, maxUsers: int): (Registry, JoinResult)
  {
    if roomId !in reg.rooms then (reg, JoinFailed("Room does not exist"))
    else if |reg.rooms[roomId].users| >= maxUsers then (reg, JoinFailed("Room is full"))
    else
      var fetched := reg.rooms[roomId];
      var left := if s in reg.userRooms then Leave(reg, reg.userRooms[s], s) else reg;
      var obj := if roomId in left.rooms then left.rooms[roomId]
                 else fetched.(users := fetched.users - {s});
      var updated := obj.(users := obj.users + {s}, lastActivity := now);
      var rooms := if roomId in left.rooms then left.rooms[roomId := updated] else left.rooms;
      (Registry(rooms, left.userRooms[s := roomId]),
       Joined(roomId, |updated.users|, |updated.users| >= maxUsers))
  }

  /** joinRoom corrected: the previous room is left only when it is a different room. */
  function Join(reg: Registry, roomId: RoomId, s: SocketId, now: int, maxUsers: int): (Registry, JoinResult)
  {
    if roomId !in reg.rooms then (reg, JoinFailed("Room does not exist"))
    else if |reg.rooms[roomId].users| >= maxUsers then (reg, JoinFailed("Room is full"))
    else
      var left := if s in reg.userRooms && reg.userRooms[s] != roomId then Leave(reg, reg.userRooms[s], s) else reg;
      LeaveOtherKeeps(reg, reg.userRooms, roomId, s);
      var users := left.rooms[roomId].users + {s};
      (AddMember(left, roomId, s, now), Joined(roomId, |users|, |users| >= maxUsers))
  }

  /** The second half of a successful join: the socket is added to the room, which is touched, and mapped to it. */
  function AddMember(reg: Registry, roomId: RoomId, s: SocketId, now: int): Registry
    requires roomId in reg.rooms
  {
    var room := reg.rooms[roomId];
    Registry(reg.rooms[roomId := room.(users := room.users + {s}, lastActivity := now)], reg.userRooms[s := roomId])
  }

  /** Leaving some other room leaves this room in place and unchanged. */
  lemma LeaveOtherKeeps(reg: Registry, userRooms: map<SocketId, RoomId>, roomId: RoomId, s: SocketId)
    requires roomId in reg.rooms && userRooms == reg.userRooms
    ensures var left := if s in userRooms && userRooms[s] != roomId then Leave(reg, userRooms[s], s) else reg;
            roomId in left.rooms && left.rooms[roomId] == reg.rooms[roomId]
  {
  }

  predicate Expired(room: Room, now: int, timeoutMs: int)
  {
    now - room.lastActivity > timeoutMs
  }

  /** The sockets that belong to some expired room. */
  function ReleasedBy(rooms: map<RoomId, Room>, within: set<RoomId>, now: int, timeoutMs: int): set<SocketId>
  {
    set r, s | r in rooms && r in within && Expired(rooms[r], now, timeoutMs) && s in rooms[r].users :: s
  }

  function Sweep(reg: Registry, now: int, timeoutMs: int): Registry
  {
    Registry(map r | r in reg.rooms && !Expired(reg.rooms[r], now, timeoutMs) :: reg.rooms[r],
             reg.userRooms - ReleasedBy(reg.rooms, reg.rooms.Keys, now, timeoutMs))
  }

  /** The ids getRoomUsers may return: the members, less the excluded socket if one is given (a truthy id). */
  function Excluding(users: set<SocketId>, exclude: Option<SocketId>): set<SocketId>
  {
    if exclude.Some? && exclude.value != "" then users - {exclude.value} else users
  }

  // ---------------------------------------------------------------------------
  // Lemmas about the transitions

  /** createRoom adds exactly one room, empty and stamped with `now`, and keeps the registry consistent. */
  lemma CreateSpec(reg: Registry, id: RoomId, now: int, maxUsers: int)
    requires id !in reg.rooms
    requires Consistent(reg) && WithinCapacity(reg, maxUsers)
    ensures var reg' := Create(reg, id, now);
      && reg'.rooms.Keys == reg.rooms.Keys + {id}
      && reg'.rooms[id] == Room({}, now, now)
      && (forall r | r in reg.rooms :: reg'.rooms[r] == reg.rooms[r])
      && reg'.userRooms == reg.userRooms
      && Consistent(reg') && WithinCapacity(reg', maxUsers)
  {
  }

  /** joinRoom's two refusals leave both maps as they were. */
  lemma JoinRefusals(reg: Registry, roomId: RoomId, s: SocketId, now: int, maxUsers: int)
    ensures roomId !in reg.rooms ==>
      Join(reg, roomId, s, now, maxUsers) == (reg, JoinFailed("Room does not exist"))
    ensures roomId in reg.rooms && |reg.rooms[roomId].users| >= maxUsers ==>
      Join(reg, roomId, s, now, maxUsers) == (reg, JoinFailed("Room is full"))
    ensures Join(reg, roomId, s, now, maxUsers).1.JoinFailed? <==>
      roomId !in reg.rooms || |reg.rooms[roomId].users| >= maxUsers
  {
  }

  /**
   * A successful join: the socket is a member of the room and maps to it,
   * the reported count and fullness describe the new member set, the room
   * was stamped with `now`, and the socket's previous room no longer holds it.
   */
  lemma JoinSuccess(reg: Registry, roomId: RoomId, s: SocketId, now: int, maxUsers: int)
    requires Consistent(reg)
    requires roomId in reg.rooms && |reg.rooms[roomId].users| < maxUsers
    ensures var (reg', res) := Join(reg, roomId, s, now, maxUsers);
      && res.Joined? && res.roomId == roomId
      && roomId in reg'.rooms && s in reg'.rooms[roomId].users
      && reg'.rooms[roomId].users == reg.rooms[roomId].users + {s}
      && reg'.rooms[roomId].lastActivity == now
      && reg'.rooms[roomId].createdAt == reg.rooms[roomId].createdAt
      && s in reg'.userRooms && reg'.userRooms[s] == roomId
      && res.userCount == |reg'.rooms[roomId].users|
      && res.isFull == (|reg'.rooms[roomId].users| >= maxUsers)
      && (forall r | r in reg'.rooms && r != roomId :: s !in reg'.rooms[r].users)
  {
    LeaveOtherKeeps(reg, reg.userRooms, roomId, s);
    LeftNowhereElse(reg, roomId, s);
  }

  /** Before the socket is added, it is in no room other than the one it joins. */
  lemma LeftNowhereElse(reg: Registry, roomId: RoomId, s: SocketId)
    requires Consistent(reg) && roomId in reg.rooms
    ensures var left := if s in reg.userRooms && reg.userRooms[s] != roomId then Leave(reg, reg.userRooms[s], s) else reg;
      forall r | r in left.rooms && r != roomId :: s !in left.rooms[r].users
  {
  }

  /** A successful join keeps userRooms the exact inverse of membership and respects the cap. */
  lemma JoinPreservesInvariant(reg: Registry, roomId: RoomId, s: SocketId, now: int, maxUsers: int)
    requires Consistent(reg) && WithinCapacity(reg, maxUsers)
    ensures var reg' := Join(reg, roomId, s, now, maxUsers).0;
      Consistent(reg') && WithinCapacity(reg', maxUsers)
  {
    var (reg', res) := Join(reg, roomId, s, now, maxUsers);
    if res.Joined? {
      var left := if s in reg.userRooms && reg.userRooms[s] != roomId then Leave(reg, reg.userRooms[s], s) else reg;
      LeaveOtherKeeps(reg, reg.userRooms, roomId, s);
      if s in reg.userRooms && reg.userRooms[s] != roomId {
        LeavePreservesInvariant(reg, reg.userRooms[s], s, maxUsers);
      }
      AddMemberPreservesInvariant(left, roomId, s, now, maxUsers);
    }
  }

  /** Adding a socket that is in no other room to a room with space keeps the invariants. */
  lemma AddMemberPreservesInvariant(reg: Registry, roomId: RoomId, s: SocketId, now: int, maxUsers: int)
    requires Consistent(reg) && WithinCapacity(reg, maxUsers)
    requires roomId in reg.rooms && |reg.rooms[roomId].users| < maxUsers
    requires s !in reg.userRooms || reg.userRooms[s] == roomId
    ensures Consistent(AddMember(reg, roomId, s, now)) && WithinCapacity(AddMember(reg, roomId, s, now), maxUsers)
  {
  }

  /** After a join every room is occupied, provided only the target could have been empty before. */
  lemma JoinLeavesNoEmptyRoom(reg: Registry, roomId: RoomId, s: SocketId, now: int, maxUsers: int)
    requires Consistent(reg) && NoEmptyRoomExcept(reg, roomId)
    requires Join(reg, roomId, s, now, maxUsers).1.Joined?
    ensures NoEmptyRoom(Join(reg, roomId, s, now, maxUsers).0)
  {
  }

  /** Rejoining the room the socket is already in keeps it a member and keeps the maps consistent. */
  lemma RejoinSameRoom(reg: Registry, roomId: RoomId, s: SocketId, now: int, maxUsers: int)
    requires Consistent(reg)
    requires s in reg.userRooms && reg.userRooms[s] == roomId
    requires |reg.rooms[roomId].users| < maxUsers
    ensures var (reg', res) := Join(reg, roomId, s, now, maxUsers);
      && res == Joined(roomId, |reg.rooms[roomId].users|, |reg.rooms[roomId].users| >= maxUsers)
      && reg'.rooms.Keys == reg.rooms.Keys
      && reg'.rooms[roomId].users == reg.rooms[roomId].users
      && reg'.userRooms == reg.userRooms
  {
    assert reg.rooms[roomId].users + {s} == reg.rooms[roomId].users;
    assert reg.userRooms[s := roomId] == reg.userRooms;
  }

  /**
   * The defect of the code as written: a socket that is the only member of a
   * room and joins it again is left pointing at a room that no longer exists.
   */
  lemma JoinAsWrittenLosesRoom()
    ensures var reg := Registry(map["ABC123" := Room({"s1"}, 0, 0)], map["s1" := "ABC123"]);
      var (reg', res) := JoinAsWritten(reg, "ABC123", "s1", 10, DefaultMaxUsersPerRoom);
      && Consistent(reg)
      && res == Joined("ABC123", 1, false)
      && reg'.rooms == map[]
      && reg'.userRooms == map["s1" := "ABC123"]
      && !Consistent(reg')
  {
    var reg := Registry(map["ABC123" := Room({"s1"}, 0, 0)], map["s1" := "ABC123"]);
    var left := Leave(reg, "ABC123", "s1");
    assert {"s1"} - {"s1"} == {};
    assert left.rooms == map[];
    assert left.userRooms == map[];
    var obj := Room({}, 0, 0);
    assert obj.users + {"s1"} == {"s1"};
    var reg' := JoinAsWritten(reg, "ABC123", "s1", 10, DefaultMaxUsersPerRoom).0;
    assert "s1" in reg'.userRooms && reg'.userRooms["s1"] !in reg'.rooms;
  }

  /** Where the socket does not rejoin its current room, the code as written and the corrected join agree. */
  lemma JoinAsWrittenAgreesElsewhere(reg: Registry, roomId: RoomId, s: SocketId, now: int, maxUsers: int)
    requires s !in reg.userRooms || reg.userRooms[s] != roomId
    ensures JoinAsWritten(reg, roomId, s, now, maxUsers) == Join(reg, roomId, s, now, maxUsers)
  {
    if roomId in reg.rooms && |reg.rooms[roomId].users| < maxUsers {
      LeaveOtherKeeps(reg, reg.userRooms, roomId, s);
    }
  }

  /**
   * leaveRoom: an unknown room is a no-op; otherwise the socket leaves the
   * room and loses its userRooms entry, and the room is deleted exactly when
   * it becomes empty; no other room changes.
   */
  lemma LeaveSpec(reg: Registry, roomId: RoomId, s: SocketId)
    ensures roomId !in reg.rooms ==> Leave(reg, roomId, s) == reg
    ensures roomId in reg.rooms ==>
      var reg' := Leave(reg, roomId, s);
      && reg'.userRooms.Keys == reg.userRooms.Keys - {s}
      && (forall t | t in reg'.userRooms :: reg'.userRooms[t] == reg.userRooms[t])
      && (roomId in reg'.rooms <==> reg.rooms[roomId].users - {s} != {})
      && (roomId in reg'.rooms ==> reg'.rooms[roomId].users == reg.rooms[roomId].users - {s})
      && (forall r | r != roomId :: (r in reg'.rooms <==> r in reg.rooms))
      && (forall r | r in reg.rooms && r != roomId :: reg'.rooms[r] == reg.rooms[r])
  {
  }

  /** Leaving the socket's own room (or leaving while in no room) keeps the invariants. */
  lemma LeavePreservesInvariant(reg: Registry, roomId: RoomId, s: SocketId, maxUsers: int)
    requires Consistent(reg) && WithinCapacity(reg, maxUsers)
    requires s in reg.userRooms ==> reg.userRooms[s] == roomId
    ensures Consistent(Leave(reg, roomId, s)) && WithinCapacity(Leave(reg, roomId, s), maxUsers)
  {
    LeaveKeepsConsistent(reg, roomId, s);
    LeaveKeepsCapacity(reg, roomId, s, maxUsers);
  }

  lemma LeaveKeepsConsistent(reg: Registry, roomId: RoomId, s: SocketId)
    requires Consistent(reg)
    requires s in reg.userRooms ==> reg.userRooms[s] == roomId
    ensures Consistent(Leave(reg, roomId, s))
  {
    var reg' := Leave(reg, roomId, s);
    if roomId in reg.rooms {
      forall r, t | r in reg'.rooms && t in reg'.rooms[r].users
        ensures t in reg'.userRooms && reg'.userRooms[t] == r
      {
        assert t in reg.rooms[r].users;
      }
    }
  }

  lemma LeaveKeepsCapacity(reg: Registry, roomId: RoomId, s: SocketId, maxUsers: int)
    requires WithinCapacity(reg, maxUsers)
    ensures WithinCapacity(Leave(reg, roomId, s), maxUsers)
  {
    var reg' := Leave(reg, roomId, s);
    if roomId in reg.rooms {
      forall r | r in reg'.rooms
        ensures reg'.rooms[r].users == {} || |reg'.rooms[r].users| <= maxUsers
      {
        if r == roomId {
          assert reg'.rooms[r].users <= reg.rooms[r].users;
        }
      }
    }
  }

  /** Leaving never leaves an empty room behind. */
  lemma LeaveKeepsNoEmptyRoom(reg: Registry, roomId: RoomId, s: SocketId)
    requires NoEmptyRoom(reg)
    ensures NoEmptyRoom(Leave(reg, roomId, s))
  {
  }

  /** handleDisconnect keeps the invariants and leaves the socket in no room. */
  lemma DisconnectSpec(reg: Registry, s: SocketId, maxUsers: int)
    requires Consistent(reg) && WithinCapacity(reg, maxUsers)
    requires s in reg.userRooms ==> reg.userRooms[s] != ""
    ensures var reg' := Disconnect(reg, s);
      && Consistent(reg') && WithinCapacity(reg', maxUsers)
      && s !in reg'.userRooms
      && (forall r | r in reg'.rooms :: s !in reg'.rooms[r].users)
  {
    if s in reg.userRooms {
      LeavePreservesInvariant(reg, reg.userRooms[s], s, maxUsers);
    }
  }

  /** updateActivity stamps that room only, and keeps the invariants. */
  lemma TouchSpec(reg: Registry, roomId: RoomId, now: int, maxUsers: int)
    requires Consistent(reg) && WithinCapacity(reg, maxUsers)
    ensures var reg' := Touch(reg, roomId, now);
      && reg'.userRooms == reg.userRooms
      && reg'.rooms.Keys == reg.rooms.Keys
      && (roomId in reg.rooms ==> reg'.rooms[roomId] == reg.rooms[roomId].(lastActivity := now))
      && (forall r | r in reg.rooms && r != roomId :: reg'.rooms[r] == reg.rooms[r])
      && Consistent(reg') && WithinCapacity(reg', maxUsers)
  {
  }

  /**
   * cleanupExpiredRooms: exactly the rooms idle for strictly longer than the
   * timeout go, the other rooms stay untouched, and exactly the members of the
   * removed rooms lose their userRooms entry.
   */
  lemma SweepSpec(reg: Registry, now: int, timeoutMs: int)
    ensures var reg' := Sweep(reg, now, timeoutMs);
      && (forall r :: r in reg'.rooms <==> r in reg.rooms && now - reg.rooms[r].lastActivity <= timeoutMs)
      && (forall r | r in reg'.rooms :: reg'.rooms[r] == reg.rooms[r])
      && (forall s :: s in reg'.userRooms <==>
            s in reg.userRooms && forall r | r in reg.rooms && s in reg.rooms[r].users :: now - reg.rooms[r].lastActivity <= timeoutMs)
      && (forall s | s in reg'.userRooms :: reg'.userRooms[s] == reg.userRooms[s])
  {
    var reg' := Sweep(reg, now, timeoutMs);
    forall s
      ensures s in reg'.userRooms <==>
            s in reg.userRooms && forall r | r in reg.rooms && s in reg.rooms[r].users :: now - reg.rooms[r].lastActivity <= timeoutMs
    {
      if s in reg.userRooms && s !in reg'.userRooms {
        var r :| r in reg.rooms && Expired(reg.rooms[r], now, timeoutMs) && s in reg.rooms[r].users;
      }
    }
  }

  /** A room whose idle time equals the timeout survives the sweep. */
  lemma SweepKeepsRoomAtTimeout(reg: Registry, roomId: RoomId, now: int, timeoutMs: int)
    requires roomId in reg.rooms && now - reg.rooms[roomId].lastActivity == timeoutMs
    ensures roomId in Sweep(reg, now, timeoutMs).rooms
  {
  }

  /** A member of a surviving room is not released, since its only room is that one. */
  lemma SweepReleasesOnlyExpiredMembers(reg: Registry, r: RoomId, s: SocketId, now: int, timeoutMs: int)
    requires Consistent(reg)
    requires r in reg.rooms && !Expired(reg.rooms[r], now, timeoutMs) && s in reg.rooms[r].users
    ensures s !in ReleasedBy(reg.rooms, reg.rooms.Keys, now, timeoutMs)
  {
    forall r2 | r2 in reg.rooms && s in reg.rooms[r2].users
      ensures !Expired(reg.rooms[r2], now, timeoutMs)
    {
      assert reg.userRooms[s] == r2 && reg.userRooms[s] == r;
    }
  }

  /** The sweep keeps the invariants, including that no room is empty. */
  lemma SweepPreservesInvariant(reg: Registry, now: int, timeoutMs: int, maxUsers: int)
    requires Consistent(reg) && WithinCapacity(reg, maxUsers)
    ensures var reg' := Sweep(reg, now, timeoutMs);
      Consistent(reg') && WithinCapacity(reg', maxUsers) && (NoEmptyRoom(reg) ==> NoEmptyRoom(reg'))
  {
    var reg' := Sweep(reg, now, timeoutMs);
    var released := ReleasedBy(reg.rooms, reg.rooms.Keys, now, timeoutMs);
    forall s | s in reg'.userRooms
      ensures reg'.userRooms[s] in reg'.rooms && s in reg'.rooms[reg'.userRooms[s]].users
    {
      var r := reg.userRooms[s];
      assert s !in released;
      assert r in reg.rooms && s in reg.rooms[r].users;
    }
    forall r, s | r in reg'.rooms && s in reg'.rooms[r].users
      ensures s in reg'.userRooms && reg'.userRooms[s] == r
    {
      SweepReleasesOnlyExpiredMembers(reg, r, s, now, timeoutMs);
    }
  }

  // ---------------------------------------------------------------------------
  // The registry object

  /** One entry of getStats' room list: the ages are taken against `now`. */
  datatype RoomStats = RoomStats(roomId: RoomId, userCount: nat, age: int, idle: int)

  datatype Stats = Stats(totalRooms: nat, totalUsers: nat, rooms: seq<RoomStats>)

  /** The inner loop of generateRoomId: six characters drawn from the alphabet. */
  method BuildRoomId(d: Draw) returns (id: RoomId)
    ensures id == IdOf(d)
    ensures IsRoomId(id)
  {
    id := "";
    for i := 0 to RoomIdLength
      invariant id == IdOf(d)[..i]
    {
      id := id + [Alphabet[d[i]]];
    }
  }

  /** The registry once the sweep has visited the rooms in `done`: their expired ones are gone with their members' entries. */
  ghost function PartialSweep(reg: Registry, done: set<RoomId>, now: int, timeoutMs: int): Registry
  {
    Registry(map r | r in reg.rooms && (r !in done || !Expired(reg.rooms[r], now, timeoutMs)) :: reg.rooms[r],
             reg.userRooms - ReleasedBy(reg.rooms, done, now, timeoutMs))
  }

  /** One iteration of the sweep over room `r`. */
  ghost function SweepOne(reg: Registry, r: RoomId, now: int, timeoutMs: int): Registry
  {
    if r in reg.rooms && Expired(reg.rooms[r], now, timeoutMs)
    then Registry(reg.rooms - {r}, reg.userRooms - reg.rooms[r].users)
    else reg
  }

  ghost function ExpiredIds(rooms: map<RoomId, Room>, done: set<RoomId>, now: int, timeoutMs: int): set<RoomId>
  {
    set r | r in rooms && r in done && Expired(rooms[r], now, timeoutMs)
  }

  /** Visiting one more room of the sweep. */
  lemma SweepStep(reg: Registry, done: set<RoomId>, r: RoomId, now: int, timeoutMs: int)
    requires r in reg.rooms && r !in done
    ensures var p := PartialSweep(reg, done, now, timeoutMs);
      && r in p.rooms && p.rooms[r] == reg.rooms[r]
      && PartialSweep(reg, done + {r}, now, timeoutMs) == SweepOne(p, r, now, timeoutMs)
    ensures |ExpiredIds(reg.rooms, done + {r}, now, timeoutMs)| ==
      |ExpiredIds(reg.rooms, done, now, timeoutMs)| + if Expired(reg.rooms[r], now, timeoutMs) then 1 else 0
  {
    var p := PartialSweep(reg, done, now, timeoutMs);
    var released := ReleasedBy(reg.rooms, done, now, timeoutMs);
    if Expired(reg.rooms[r], now, timeoutMs) {
      assert ReleasedBy(reg.rooms, done + {r}, now, timeoutMs) == released + reg.rooms[r].users;
      assert (reg.userRooms - released) - reg.rooms[r].users == reg.userRooms - (released + reg.rooms[r].users);
      assert ExpiredIds(reg.rooms, done + {r}, now, timeoutMs) == ExpiredIds(reg.rooms, done, now, timeoutMs) + {r};
    } else {
      assert ReleasedBy(reg.rooms, done + {r}, now, timeoutMs) == released;
      assert ExpiredIds(reg.rooms, done + {r}, now, timeoutMs) == ExpiredIds(reg.rooms, done, now, timeoutMs);
    }
  }

  /** The sweep's loop invariant: `todo` is what is left to visit, `count` the rooms deleted so far. */
  ghost predicate SweepInv(reg0: Registry, todo: set<RoomId>, reg: Registry, count: int, now: int, timeoutMs: int)
  {
    && todo <= reg0.rooms.Keys
    && reg == PartialSweep(reg0, reg0.rooms.Keys - todo, now, timeoutMs)
    && count == |ExpiredIds(reg0.rooms, reg0.rooms.Keys - todo, now, timeoutMs)|
  }

  lemma SweepInvStart(reg0: Registry, now: int, timeoutMs: int)
    ensures SweepInv(reg0, reg0.rooms.Keys, reg0, 0, now, timeoutMs)
  {
    assert reg0.rooms.Keys - reg0.rooms.Keys == {};
    assert PartialSweep(reg0, {}, now, timeoutMs) == reg0;
    assert ExpiredIds(reg0.rooms, {}, now, timeoutMs) == {};
  }

  lemma SweepInvStep(reg0: Registry, todo: set<RoomId>, reg: Registry, count: int, r: RoomId, now: int, timeoutMs: int)
    requires SweepInv(reg0, todo, reg, count, now, timeoutMs) && r in todo
    ensures r in reg.rooms
    ensures SweepInv(reg0, todo - {r}, SweepOne(reg, r, now, timeoutMs),
                     count + (if Expired(reg.rooms[r], now, timeoutMs) then 1 else 0), now, timeoutMs)
  {
    var done := reg0.rooms.Keys - todo;
    assert reg0.rooms.Keys - (todo - {r}) == done + {r};
    SweepStep(reg0, done, r, now, timeoutMs);
  }

  /** When nothing is left to visit, the invariant states the whole sweep and its count. */
  lemma SweepInvDone(reg0: Registry, reg: Registry, count: int, now: int, timeoutMs: int)
    requires SweepInv(reg0, {}, reg, count, now, timeoutMs)
    ensures reg == Sweep(reg0, now, timeoutMs)
    ensures count == |reg0.rooms.Keys - reg.rooms.Keys|
  {
    assert reg0.rooms.Keys - {} == reg0.rooms.Keys;
    SweepDone(reg0, now, timeoutMs);
  }

  /** Once every room is visited, the partial sweep is the whole sweep. */
  lemma SweepDone(reg: Registry, now: int, timeoutMs: int)
    ensures PartialSweep(reg, reg.rooms.Keys, now, timeoutMs) == Sweep(reg, now, timeoutMs)
    ensures ExpiredIds(reg.rooms, reg.rooms.Keys, now, timeoutMs) ==
      reg.rooms.Keys - Sweep(reg, now, timeoutMs).rooms.Keys
  {
  }

  function StatIds(entries: seq<RoomStats>): set<RoomId>
  {
    set e | e in entries :: e.roomId
  }

  /** No two entries of a getStats list name the same room. */
  predicate DistinctIds(entries: seq<RoomStats>)
  {
    forall i, j :: 0 <= i < j < |entries| ==> entries[i].roomId != entries[j].roomId
  }

  lemma StatIdsAppend(entries: seq<RoomStats>, e: RoomStats)
    requires DistinctIds(entries) && e.roomId !in StatIds(entries)
    ensures StatIds(entries + [e]) == StatIds(entries) + {e.roomId}
    ensures DistinctIds(entries + [e])
  {
    assert forall x :: x in entries + [e] <==> x in entries || x == e;
    assert forall i :: 0 <= i < |entries| ==> entries[i] in entries;
  }

  lemma {:induction false} DistinctIdsCount(entries: seq<RoomStats>)
    requires DistinctIds(entries)
    ensures |StatIds(entries)| == |entries|
  {
    if entries != [] {
      var init := entries[..|entries| - 1];
      var last := entries[|entries| - 1];
      assert entries == init + [last];
      assert DistinctIds(init);
      assert last.roomId !in StatIds(init) by {
        forall x | x in init ensures x.roomId != last.roomId {
          var i :| 0 <= i < |init| && init[i] == x;
          assert entries[i] == x;
        }
      }
      DistinctIdsCount(init);
      StatIdsAppend(init, last);
    }
  }

  /** A getStats entry reports the room it names as it stands at `now`. */
  ghost predicate Describes(e: RoomStats, rooms: map<RoomId, Room>, now: int)
  {
    && e.roomId in rooms
    && e.userCount == |rooms[e.roomId].users|
    && e.age == now - rooms[e.roomId].createdAt
    && e.idle == now - rooms[e.roomId].lastActivity
  }

  /** The `Array.from(rooms.entries()).map(...)` of getStats: one entry per room (their order is not modelled). */
  method DescribeRooms(live: map<RoomId, Room>, now: int) returns (entries: seq<RoomStats>)
    ensures |entries| == |live|
    ensures StatIds(entries) == live.Keys
    ensures forall e :: e in entries ==> Describes(e, live, now)
    ensures DistinctIds(entries)
  {
    entries := [];
    var todo := live.Keys;
    while todo != {}
      invariant todo <= live.Keys
      invariant StatIds(entries) == live.Keys - todo
      invariant forall e :: e in entries ==> Describes(e, live, now)
      invariant DistinctIds(entries)
      decreases todo
    {
      var r :| r in todo;
      var e := RoomStats(r, |live[r].users|, now - live[r].createdAt, now - live[r].lastActivity);
      StatIdsAppend(entries, e);
      entries := entries + [e];
      todo := todo - {r};
    }
    assert live.Keys - todo == live.Keys;
    DistinctIdsCount(entries);
  }

  class RoomManager {
    var rooms: map<RoomId, Room>
    var userRooms: map<SocketId, RoomId>
    const roomTimeoutMs: int
    const maxUsersPerRoom: int

    function State(): Registry
      reads this
    {
      Registry(rooms, userRooms)
    }

    ghost predicate Valid()
      reads this
    {
      Consistent(State()) && WithinCapacity(State(), maxUsersPerRoom)
    }

    /** The configuration comes from the environment; the cleanup timer is left to the caller. */
    constructor (envRoomTimeoutMs: Option<int>, envMaxUsersPerRoom: Option<int>)
      ensures rooms == map[] && userRooms == map[]
      ensures roomTimeoutMs == OrDefault(envRoomTimeoutMs, DefaultRoomTimeoutMs)
      ensures maxUsersPerRoom == OrDefault(envMaxUsersPerRoom, DefaultMaxUsersPerRoom)
      ensures Valid()
    {
      rooms := map[];
      userRooms := map[];
      roomTimeoutMs := OrDefault(envRoomTimeoutMs, DefaultRoomTimeoutMs);
      maxUsersPerRoom := OrDefault(envMaxUsersPerRoom, DefaultMaxUsersPerRoom);
    }

    /**
     * The do-while retry loop: candidates are drawn until one is not a live
     * room id. `draws` is the random stream; the source retries without bound,
     * so the model asks that the stream holds a fresh candidate.
     */
    method GenerateRoomId(draws: seq<Draw>) returns (id: RoomId)
      requires HasFresh(draws, rooms.Keys)
      ensures id == FirstFresh(draws, rooms.Keys)
    {
      var k := 0;
      id := BuildRoomId(draws[k]);
      while id in rooms
        invariant 0 <= k < |draws| && HasFresh(draws[k..], rooms.Keys)
        invariant FirstFresh(draws[k..], rooms.Keys) == FirstFresh(draws, rooms.Keys)
        invariant id == IdOf(draws[k])
        decreases |draws| - k
      {
        assert draws[k..][1..] == draws[k + 1..];
        k := k + 1;
        id := BuildRoomId(draws[k]);
      }
    }

    method CreateRoom(now: int, draws: seq<Draw>) returns (id: RoomId)
      requires HasFresh(draws, rooms.Keys)
      modifies this
      ensures id == FirstFresh(draws, old(rooms).Keys)
      ensures State() == Create(old(State()), id, now)
      ensures old(Valid()) ==> Valid()
    {
      ghost var reg0 := State();
      ghost var valid0 := Valid();
      id := GenerateRoomId(draws);
      rooms := rooms[id := Room({}, now, now)];
      if valid0 {
        CreateSpec(reg0, id, now, maxUsersPerRoom);
      }
    }

    method JoinRoom(roomId: RoomId, s: SocketId, now: int) returns (res: JoinResult)
      modifies this
      ensures (State(), res) == Join(old(State()), roomId, s, now, maxUsersPerRoom)
      ensures old(Valid()) ==> Valid()
    {
      ghost var reg := State();
      if old(Valid()) {
        JoinPreservesInvariant(reg, roomId, s, now, maxUsersPerRoom);
      }
      if roomId !in rooms {
        return JoinFailed("Room does not exist");
      }
      if |rooms[roomId].users| >= maxUsersPerRoom {
        return JoinFailed("Room is full");
      }
      if s in userRooms && userRooms[s] != roomId {
        var oldRoomId := userRooms[s];
        LeaveRoom(oldRoomId, s);
      }
      LeaveOtherKeeps(reg, reg.userRooms, roomId, s);
      var room := rooms[roomId];
      var users := room.users + {s};
      rooms := rooms[roomId := room.(users := users, lastActivity := now)];
      userRooms := userRooms[s := roomId];
      res := Joined(roomId, |users|, |users| >= maxUsersPerRoom);
    }

    method LeaveRoom(roomId: RoomId, s: SocketId)
      modifies this
      ensures State() == Leave(old(State()), roomId, s)
      ensures old(Valid()) && (s in old(userRooms) ==> old(userRooms)[s] == roomId) ==> Valid()
    {
      ghost var reg0 := State();
      ghost var valid0 := Valid() && (s in userRooms ==> userRooms[s] == roomId);
      if roomId in rooms {
        var room := rooms[roomId];
        var users := room.users - {s};
        userRooms := userRooms - {s};
        if users == {} {
          rooms := rooms - {roomId};
        } else {
          rooms := rooms[roomId := room.(users := users)];
        }
      }
      if valid0 {
        LeavePreservesInvariant(reg0, roomId, s, maxUsersPerRoom);
      }
    }

    method HandleDisconnect(s: SocketId)
      modifies this
      ensures State() == Disconnect(old(State()), s)
      ensures old(Valid()) ==> Valid()
    {
      if s in userRooms && userRooms[s] != "" {
        LeaveRoom(userRooms[s], s);
      }
    }

    /** getRoomUsers: the members in some order, without the excluded socket; `[]` for an unknown room. */
    method GetRoomUsers(roomId: RoomId, exclude: Option<SocketId>) returns (users: seq<SocketId>)
      ensures roomId !in rooms ==> users == []
      ensures roomId in rooms ==> (forall u :: u in users <==> u in Excluding(rooms[roomId].users, exclude))
      ensures forall i, j :: 0 <= i < j < |users| ==> users[i] != users[j]
      ensures exclude.Some? && exclude.value != "" ==> exclude.value !in users
    {
      users := [];
      if roomId !in rooms {
        return;
      }
      var wanted := Excluding(rooms[roomId].users, exclude);
      var todo := wanted;
      while todo != {}
        invariant todo <= wanted
        invariant forall u :: u in users <==> u in wanted - todo
        invariant forall i, j :: 0 <= i < j < |users| ==> users[i] != users[j]
        decreases todo
      {
        var u :| u in todo;
        assert u !in users;
        users := users + [u];
        todo := todo - {u};
      }
    }

    method UpdateActivity(roomId: RoomId, now: int)
      modifies this
      ensures State() == Touch(old(State()), roomId, now)
      ensures old(Valid()) ==> Valid()
    {
      if roomId in rooms {
        rooms := rooms[roomId := rooms[roomId].(lastActivity := now)];
      }
    }

    /**
     * The periodic sweep at time `now`, returning the count it logs. `todo`
     * holds the rooms the Map iterator has still to visit.
     */
    method CleanupExpiredRooms(now: int) returns (cleanedCount: nat)
      modifies this
      ensures State() == Sweep(old(State()), now, roomTimeoutMs)
      ensures cleanedCount == |old(rooms).Keys - rooms.Keys|
      ensures old(Valid()) ==> Valid()
    {
      ghost var reg0 := State();
      ghost var valid0 := Valid();
      var todo := rooms.Keys;
      cleanedCount := 0;
      SweepInvStart(reg0, now, roomTimeoutMs);
      while todo != {}
        invariant SweepInv(reg0, todo, State(), cleanedCount, now, roomTimeoutMs)
        decreases todo
      {
        var r :| r in todo;
        SweepInvStep(reg0, todo, State(), cleanedCount, r, now, roomTimeoutMs);
        var cleaned := CleanupRoom(r, now);
        if cleaned {
          cleanedCount := cleanedCount + 1;
        }
        todo := todo - {r};
      }
      SweepInvDone(reg0, State(), cleanedCount, now, roomTimeoutMs);
      if valid0 {
        SweepPreservesInvariant(reg0, now, roomTimeoutMs, maxUsersPerRoom);
      }
    }

    /** One iteration of the sweep: an expired room is deleted together with its members' entries. */
    method CleanupRoom(r: RoomId, now: int) returns (cleaned: bool)
      requires r in rooms
      modifies this
      ensures cleaned == Expired(old(rooms)[r], now, roomTimeoutMs)
      ensures State() == SweepOne(old(State()), r, now, roomTimeoutMs)
    {
      var room := rooms[r];
      cleaned := now - room.lastActivity > roomTimeoutMs;
      if cleaned {
        ReleaseMembers(room.users);
        rooms := rooms - {r};
      }
    }

    /** The inner loop of the sweep: every member of an expired room loses its room entry. */
    method ReleaseMembers(members: set<SocketId>)
      modifies this
      ensures rooms == old(rooms)
      ensures userRooms == old(userRooms) - members
    {
      var todo := members;
      while todo != {}
        invariant todo <= members
        invariant rooms == old(rooms)
        invariant userRooms == old(userRooms) - (members - todo)
        decreases todo
      {
        var u :| u in todo;
        userRooms := userRooms - {u};
        todo := todo - {u};
      }
    }

    /** getStats: totals and one entry per live room, ages measured against `now`. */
    method GetStats(now: int) returns (stats: Stats)
      ensures stats.totalRooms == |rooms| && stats.totalUsers == |userRooms|
      ensures |stats.rooms| == |rooms|
      ensures StatIds(stats.rooms) == rooms.Keys
      ensures forall e :: e in stats.rooms ==> Describes(e, rooms, now)
      ensures DistinctIds(stats.rooms)
    {
      var entries := DescribeRooms(rooms, now);
      stats := Stats(|rooms|, |userRooms|, entries);
    }
  }
}
