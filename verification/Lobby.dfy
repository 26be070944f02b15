/** Rooms, the room repository and the lobby service that reads, checks and then writes through it.

    A database call that may fail takes the outcome as a parameter; a failed call changes nothing. */
module Lobby {
  import opened Wrappers

  const FIRST_ROOM_ID := 1000
  const MIN_PLAYERS := 2
  const MAX_PLAYERS := 8

  datatype Player = Player(userId: nat, nickname: string, level: int, status: int, joinTime: int)

  datatype Room = Room(
    roomId: nat, name: string, gameType: int, maxPlayers: int, currentPlayers: int, status: int,
    isPrivate: bool, password: string, ownerId: nat, players: seq<Player>)

  datatype UserInfo = UserInfo(nickname: string, level: int)

  predicate HasPlayer(players: seq<Player>, userId: nat) {
    exists i :: 0 <= i < |players| && players[i].userId == userId
  }

  /** The players kept by `$pull`: all entries of the user go. */
  function Without(players: seq<Player>, userId: nat): seq<Player> {
    if players == [] then []
    else if players[0].userId == userId then Without(players[1..], userId)
    else [players[0]] + Without(players[1..], userId)
  }

  /** The first player other than the user, 0 if there is none. */
  function FirstOther(players: seq<Player>, userId: nat): nat {
    if players == [] then 0
    else if players[0].userId != userId then players[0].userId
    else FirstOther(players[1..], userId)
  }

  /** `$push` with `$inc`, and `$pull` with `$inc`: one atomic update each, neither of them guarded. */
  function Push(room: Room, player: Player): Room {
    room.(players := room.players + [player], currentPlayers := room.currentPlayers + 1)
  }

  function Pull(room: Room, userId: nat): Room {
    room.(players := Without(room.players, userId), currentPlayers := room.currentPlayers - 1)
  }

  // ---------------------------------------------------------------- the service on values

  /** `room_id` is a unique key of the collection. */
  datatype LobbyState = LobbyState(rooms: map<nat, Room>, nextRoomId: nat)

  const EMPTY_LOBBY := LobbyState(map[], FIRST_ROOM_ID)

  datatype CreateRequest = CreateRequest(name: string, gameType: int, maxPlayers: int, isPrivate: bool, password: string)
  datatype JoinRequest = JoinRequest(roomId: nat, password: string)

  /** Outcomes of what the service calls while it answers: the user lookup and the writes. */
  datatype Outcome = Outcome(user: Option<UserInfo>, now: int, insertOk: bool, pushOk: bool, pullOk: bool,
                             updateOk: bool, deleteOk: bool)

  function NewRoom(id: nat, owner: nat, req: CreateRequest, user: UserInfo, now: int): Room {
    Room(id, req.name, req.gameType, req.maxPlayers, 1, 0, req.isPrivate, req.password, owner,
         [Player(owner, user.nickname, user.level, 1, now)])
  }

  function Create(l: LobbyState, userId: nat, request: Option<CreateRequest>, o: Outcome): (LobbyState, int) {
    if userId == 0 then (l, -1)
    else if request.None? then (l, -2)
    else if request.value.name == "" then (l, -3)
    else if request.value.maxPlayers < MIN_PLAYERS || request.value.maxPlayers > MAX_PLAYERS then (l, -4)
    else if request.value.isPrivate && request.value.password == "" then (l, -5)
    else if o.user.None? then (l, -6)
    else
      var id := l.nextRoomId;
      if !o.insertOk || id in l.rooms then (l.(nextRoomId := id + 1), -7)
      else
        var room := NewRoom(id, userId, request.value, o.user.value, o.now);
        (LobbyState(l.rooms[id := room], id + 1), 0)
  }

  /** The checks of a join on the room as it was read. */
  function JoinCode(room: Room, userId: nat, password: string, user: Option<UserInfo>): int {
    if room.status != 0 then -5
    else if room.currentPlayers >= room.maxPlayers then -6
    else if HasPlayer(room.players, userId) then -7
    else if room.isPrivate && room.password != password then -8
    else if user.None? then -9
    else 0
  }

  function Joiner(userId: nat, user: UserInfo, now: int): Player {
    Player(userId, user.nickname, user.level, 0, now)
  }

  function Join(l: LobbyState, userId: nat, request: Option<JoinRequest>, o: Outcome): (LobbyState, int) {
    if userId == 0 then (l, -1)
    else if request.None? then (l, -2)
    else if request.value.roomId == 0 then (l, -3)
    else if request.value.roomId !in l.rooms then (l, -4)
    else
      var room := l.rooms[request.value.roomId];
      var code := JoinCode(room, userId, request.value.password, o.user);
      if code != 0 then (l, code)
      else if !o.pushOk then (l, -10)
      else (l.(rooms := l.rooms[request.value.roomId := Push(room, Joiner(userId, o.user.value, o.now))]), 0)
  }

  function Leave(l: LobbyState, userId: nat, request: Option<nat>, o: Outcome): (LobbyState, int) {
    if userId == 0 then (l, -1)
    else if request.None? then (l, -2)
    else if request.value == 0 then (l, -3)
    else if request.value !in l.rooms then (l, -4)
    else
      var id := request.value;
      var room := l.rooms[id];
      if !HasPlayer(room.players, userId) then (l, -5)
      else if room.ownerId != userId then
        if o.pullOk then (l.(rooms := l.rooms[id := Pull(room, userId)]), 0) else (l, -8)
      else if room.currentPlayers <= 1 then
        if o.deleteOk then (l.(rooms := l.rooms - {id}), 0) else (l, -6)
      else
        var heir := FirstOther(room.players, userId);
        if heir == 0 then (l, 0)
        else if !o.pullOk then (l, -7)
        else if o.updateOk then
          // The room read before the pull is written back whole, with a new owner.
          (l.(rooms := l.rooms[id := room.(ownerId := heir)]), 0)
        else (l.(rooms := l.rooms[id := Pull(room, userId)]), 0)
  }

  // ---------------------------------------------------------------- the repository

  class RoomRepository {
    var rooms: map<nat, Room>

    constructor ()
      ensures rooms == map[]
    {
      rooms := map[];
    }

    method CreateRoom(room: Room, insertOk: bool) returns (ok: bool)
      modifies this
      ensures ok == (insertOk && room.roomId !in old(rooms))
      ensures rooms == if ok then old(rooms)[room.roomId := room] else old(rooms)
    {
      ok := insertOk && room.roomId !in rooms;
      if ok {
        rooms := rooms[room.roomId := room];
      }
    }

    method GetRoomByID(roomId: nat) returns (room: Option<Room>)
      ensures room == if roomId in rooms then Some(rooms[roomId]) else None
    {
      room := if roomId in rooms then Some(rooms[roomId]) else None;
    }

    /** An update that matches no document succeeds without effect. */
    method AddPlayerToRoom(roomId: nat, player: Player, pushOk: bool) returns (ok: bool)
      modifies this
      ensures ok == pushOk
      ensures rooms == if ok && roomId in old(rooms) then old(rooms)[roomId := Push(old(rooms)[roomId], player)]
                       else old(rooms)
    {
      ok := pushOk;
      if ok && roomId in rooms {
        rooms := rooms[roomId := Push(rooms[roomId], player)];
      }
    }

    method RemovePlayerFromRoom(roomId: nat, userId: nat, pullOk: bool) returns (ok: bool)
      modifies this
      ensures ok == pullOk
      ensures rooms == if ok && roomId in old(rooms) then old(rooms)[roomId := Pull(old(rooms)[roomId], userId)]
                       else old(rooms)
    {
      ok := pullOk;
      if ok && roomId in rooms {
        rooms := rooms[roomId := Pull(rooms[roomId], userId)];
      }
    }

    /** `$set` of every field of `room`. */
    method UpdateRoom(room: Room, updateOk: bool) returns (ok: bool)
      modifies this
      ensures ok == updateOk
      ensures rooms == if ok && room.roomId in old(rooms) then old(rooms)[room.roomId := room] else old(rooms)
    {
      ok := updateOk;
      if ok && room.roomId in rooms {
        rooms := rooms[room.roomId := room];
      }
    }

    method DeleteRoom(roomId: nat, deleteOk: bool) returns (ok: bool)
      modifies this
      ensures ok == deleteOk
      ensures rooms == if ok then old(rooms) - {roomId} else old(rooms)
    {
      ok := deleteOk;
      if ok {
        rooms := rooms - {roomId};
      }
    }
  }

  // ---------------------------------------------------------------- the service

  class LobbyServer {
    const roomRepo: RoomRepository
    var nextRoomId: nat

    function View(): LobbyState
      reads this, roomRepo
    {
      LobbyState(roomRepo.rooms, nextRoomId)
    }

    /** Rooms are stored under their own id. */
    ghost predicate Keyed()
      reads this, roomRepo
    {
      forall id :: id in roomRepo.rooms ==> roomRepo.rooms[id].roomId == id
    }

    constructor ()
      ensures View() == LobbyState(map[], 1000) && Keyed() && fresh(roomRepo)
    {
      roomRepo := new RoomRepository();
      nextRoomId := FIRST_ROOM_ID;
    }

    method GenerateRoomID() returns (id: nat)
      modifies this
      ensures id == old(nextRoomId) && nextRoomId == id + 1
    {
      id := nextRoomId;
      nextRoomId := nextRoomId + 1;
    }

    method CreateRoom(userId: nat, request: Option<CreateRequest>, o: Outcome) returns (code: int)
      requires Keyed()
      modifies this, roomRepo
      ensures Keyed() && (View(), code) == Create(old(View()), userId, request, o)
    {
      if userId == 0 { return -1; }
      if request.None? { return -2; }
      var req := request.value;
      if req.name == "" { return -3; }
      if req.maxPlayers < MIN_PLAYERS || req.maxPlayers > MAX_PLAYERS { return -4; }
      if req.isPrivate && req.password == "" { return -5; }
      if o.user.None? { return -6; }
      var id := GenerateRoomID();
      var room := NewRoom(id, userId, req, o.user.value, o.now);
      var ok := roomRepo.CreateRoom(room, o.insertOk);
      code := if ok then 0 else -7;
    }

    /** The scan for a user that both JoinRoom and LeaveRoom make. */
    method FindPlayer(players: seq<Player>, userId: nat) returns (found: bool)
      ensures found == HasPlayer(players, userId)
    {
      for i := 0 to |players|
        invariant forall j :: 0 <= j < i ==> players[j].userId != userId
      {
        if players[i].userId == userId {
          return true;
        }
      }
      found := false;
    }

    method JoinRoom(userId: nat, request: Option<JoinRequest>, o: Outcome) returns (code: int)
      requires Keyed()
      modifies roomRepo
      ensures Keyed() && (View(), code) == Join(old(View()), userId, request, o)
    {
      if userId == 0 { return -1; }
      if request.None? { return -2; }
      if request.value.roomId == 0 { return -3; }
      var read := roomRepo.GetRoomByID(request.value.roomId);
      if read.None? { return -4; }
      var room := read.value;
      if room.status != 0 { return -5; }
      if room.currentPlayers >= room.maxPlayers { return -6; }
      var already := FindPlayer(room.players, userId);
      if already { return -7; }
      if room.isPrivate && room.password != request.value.password { return -8; }
      if o.user.None? { return -9; }
      var player := Joiner(userId, o.user.value, o.now);
      var ok := roomRepo.AddPlayerToRoom(request.value.roomId, player, o.pushOk);
      code := if ok then 0 else -10;
    }

    method FindHeir(players: seq<Player>, userId: nat) returns (heir: nat)
      ensures heir == FirstOther(players, userId)
    {
      heir := 0;
      for i := 0 to |players|
        invariant FirstOther(players, userId) == FirstOther(players[i..], userId)
      {
        if players[i].userId != userId {
          return players[i].userId;
        }
      }
    }

    method LeaveRoom(userId: nat, request: Option<nat>, o: Outcome) returns (code: int)
      requires Keyed()
      modifies roomRepo
      ensures Keyed() && (View(), code) == Leave(old(View()), userId, request, o)
    {
      if userId == 0 { return -1; }
      if request.None? { return -2; }
      var id := request.value;
      if id == 0 { return -3; }
      var read := roomRepo.GetRoomByID(id);
      if read.None? { return -4; }
      var room := read.value;
      var userInRoom := FindPlayer(room.players, userId);
      if !userInRoom { return -5; }
      if room.ownerId == userId {
        if room.currentPlayers <= 1 {
          var ok := roomRepo.DeleteRoom(id, o.deleteOk);
          return if ok then 0 else -6;
        }
        var heir := FindHeir(room.players, userId);
        if heir != 0 {
          var ok := roomRepo.RemovePlayerFromRoom(id, userId, o.pullOk);
          if !ok { return -7; }
          room := room.(ownerId := heir);
          // A failure here is only logged.
          var _ := roomRepo.UpdateRoom(room, o.updateOk);
          assert roomRepo.rooms == old(roomRepo.rooms)[id := if o.updateOk then room else Pull(read.value, userId)];
        }
      } else {
        var ok := roomRepo.RemovePlayerFromRoom(id, userId, o.pullOk);
        if !ok { return -8; }
      }
      code := 0;
    }
  }
}
