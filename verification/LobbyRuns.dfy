/** What every sequential run of the lobby keeps, and what exactly a departure does. */
module LobbyRuns {
  import opened Wrappers
  import opened Lobby

  datatype Event =
    | CreateEvent(userId: nat, create: Option<CreateRequest>, o: Outcome)
    | JoinEvent(userId: nat, join: Option<JoinRequest>, o: Outcome)
    | LeaveEvent(userId: nat, leave: Option<nat>, o: Outcome)

  function Step(l: LobbyState, e: Event): LobbyState {
    match e
    case CreateEvent(u, req, o) => Create(l, u, req, o).0
    case JoinEvent(u, req, o) => Join(l, u, req, o).0
    case LeaveEvent(u, req, o) => Leave(l, u, req, o).0
  }

  function Run(l: LobbyState, es: seq<Event>): LobbyState
    decreases |es|
  {
    if es == [] then l else Run(Step(l, es[0]), es[1..])
  }

  ghost predicate DistinctIds(players: seq<Player>) {
    forall i, j :: 0 <= i < j < |players| ==> players[i].userId != players[j].userId
  }

  ghost predicate RoomOk(r: Room) {
    && MIN_PLAYERS <= r.maxPlayers <= MAX_PLAYERS
    && 1 <= r.currentPlayers == |r.players| <= r.maxPlayers
    && DistinctIds(r.players)
    && (forall i :: 0 <= i < |r.players| ==> r.players[i].userId != 0)
    && HasPlayer(r.players, r.ownerId)
  }

  ghost predicate LobbyOk(l: LobbyState) {
    forall id :: id in l.rooms ==>
      id < l.nextRoomId && l.rooms[id].roomId == id && RoomOk(l.rooms[id])
  }

  // ---------------------------------------------------------------- the loops over players

  lemma {:induction false} WithoutAbsent(players: seq<Player>, u: nat)
    requires !HasPlayer(players, u)
    ensures Without(players, u) == players
  {
    if players != [] {
      forall i | 0 <= i < |players[1..]| ensures players[1..][i].userId != u {
        assert players[1..][i] == players[i + 1];
      }
      assert players[0].userId != u;
      WithoutAbsent(players[1..], u);
    }
  }

  /** Pulling a user from a list of distinct users removes exactly that user's one entry. */
  lemma {:induction false} WithoutPresent(players: seq<Player>, u: nat, k: nat)
    requires DistinctIds(players) && k < |players| && players[k].userId == u
    ensures Without(players, u) == players[..k] + players[k + 1..]
  {
    if k == 0 {
      forall i | 0 <= i < |players[1..]| ensures players[1..][i].userId != u {
        assert players[1..][i] == players[i + 1];
      }
      WithoutAbsent(players[1..], u);
    } else {
      assert players[1..][k - 1] == players[k];
      WithoutPresent(players[1..], u, k - 1);
      assert players[..k] == [players[0]] + players[1..][..k - 1];
    }
  }

  /** The search stops at the first player who is someone else: everyone before him is the user. */
  lemma {:induction false} FirstOtherExact(players: seq<Player>, u: nat, k: nat)
    requires k < |players| && players[k].userId != u && forall i :: 0 <= i < k ==> players[i].userId == u
    ensures FirstOther(players, u) == players[k].userId
  {
    if k > 0 {
      FirstOtherExact(players[1..], u, k - 1);
    }
  }

  lemma {:induction false} FirstOtherFound(players: seq<Player>, u: nat, k: nat)
    requires k < |players| && players[k].userId != u
    ensures HasPlayer(players, FirstOther(players, u)) && FirstOther(players, u) != u
  {
    if players[0].userId == u {
      FirstOtherFound(players[1..], u, k - 1);
      var i :| 0 <= i < |players[1..]| && players[1..][i].userId == FirstOther(players, u);
      assert players[i + 1].userId == FirstOther(players, u);
    }
  }

  /** In a sound room that its owner shares, the search for an heir succeeds: the test for 0 never fails. */
  lemma HeirExists(r: Room)
    requires RoomOk(r) && r.currentPlayers > 1
    ensures FirstOther(r.players, r.ownerId) != 0
    ensures HasPlayer(r.players, FirstOther(r.players, r.ownerId)) && FirstOther(r.players, r.ownerId) != r.ownerId
  {
    var k := if r.players[0].userId != r.ownerId then 0 else 1;
    FirstOtherFound(r.players, r.ownerId, k);
  }

  lemma RestIndex(players: seq<Player>, k: nat, i: nat)
    requires k < |players| && i < |players| - 1
    ensures (players[..k] + players[k + 1..])[i] == players[if i < k then i else i + 1]
  {
  }

  /** Taking out one of distinct players leaves the others, still distinct. */
  lemma RestDistinct(players: seq<Player>, k: nat)
    requires DistinctIds(players) && k < |players|
    ensures DistinctIds(players[..k] + players[k + 1..])
  {
    var rest := players[..k] + players[k + 1..];
    forall i, j | 0 <= i < j < |rest| ensures rest[i].userId != rest[j].userId {
      RestIndex(players, k, i);
      RestIndex(players, k, j);
    }
  }

  lemma RestMembers(players: seq<Player>, k: nat, v: nat)
    requires DistinctIds(players) && k < |players|
    ensures HasPlayer(players[..k] + players[k + 1..], v) <==> HasPlayer(players, v) && v != players[k].userId
  {
    var rest := players[..k] + players[k + 1..];
    if HasPlayer(rest, v) {
      var i :| 0 <= i < |rest| && rest[i].userId == v;
      RestIndex(players, k, i);
    }
    if HasPlayer(players, v) && v != players[k].userId {
      var i :| 0 <= i < |players| && players[i].userId == v;
      RestIndex(players, k, if i < k then i else i - 1);
    }
  }

  /** What a pull of a member does to the list. */
  lemma PullRest(r: Room, u: nat) returns (k: nat)
    requires DistinctIds(r.players) && HasPlayer(r.players, u)
    ensures k < |r.players| && r.players[k].userId == u
    ensures Pull(r, u).players == r.players[..k] + r.players[k + 1..]
    ensures |Pull(r, u).players| == |r.players| - 1 && DistinctIds(Pull(r, u).players)
  {
    k :| 0 <= k < |r.players| && r.players[k].userId == u;
    WithoutPresent(r.players, u, k);
    RestDistinct(r.players, k);
  }

  lemma PullOk(r: Room, u: nat)
    requires RoomOk(r) && HasPlayer(r.players, u) && u != r.ownerId
    ensures RoomOk(Pull(r, u)) && !HasPlayer(Pull(r, u).players, u)
  {
    var k := PullRest(r, u);
    RestMembers(r.players, k, u);
    RestMembers(r.players, k, r.ownerId);
    forall i | 0 <= i < |r.players| - 1 ensures Pull(r, u).players[i].userId != 0 {
      RestIndex(r.players, k, i);
    }
  }

  lemma PushOk(r: Room, u: nat, password: string, user: Option<UserInfo>, now: int)
    requires RoomOk(r) && u != 0 && JoinCode(r, u, password, user) == 0
    ensures RoomOk(Push(r, Joiner(u, user.value, now)))
  {
    var m :| 0 <= m < |r.players| && r.players[m].userId == r.ownerId;
    assert Push(r, Joiner(u, user.value, now)).players[m] == r.players[m];
  }

  // ---------------------------------------------------------------- every run

  /** The one failure that the service swallows: an owner pulled, but no new owner written. */
  predicate Swallowed(e: Event) {
    e.LeaveEvent? && e.o.pullOk && !e.o.updateOk
  }

  lemma CreateKeeps(l: LobbyState, u: nat, req: Option<CreateRequest>, o: Outcome)
    requires LobbyOk(l)
    ensures LobbyOk(Create(l, u, req, o).0)
    ensures Create(l, u, req, o).1 == -7 ==> !o.insertOk
  {
    if Create(l, u, req, o).1 == 0 {
      var room := NewRoom(l.nextRoomId, u, req.value, o.user.value, o.now);
      assert room.players[0].userId == u;
    }
  }

  lemma JoinKeeps(l: LobbyState, u: nat, req: Option<JoinRequest>, o: Outcome)
    requires LobbyOk(l)
    ensures LobbyOk(Join(l, u, req, o).0)
  {
    if Join(l, u, req, o).1 == 0 {
      PushOk(l.rooms[req.value.roomId], u, req.value.password, o.user, o.now);
    }
  }

  lemma LeaveKeeps(l: LobbyState, u: nat, req: Option<nat>, o: Outcome)
    requires LobbyOk(l) && (o.pullOk ==> o.updateOk)
    ensures LobbyOk(Leave(l, u, req, o).0)
  {
    if Leave(l, u, req, o).1 == 0 {
      var r := l.rooms[req.value];
      if r.ownerId != u {
        PullOk(r, u);
      } else if r.currentPlayers > 1 {
        HeirExists(r);
      }
    }
  }

  lemma {:induction false} RunKeeps(l: LobbyState, es: seq<Event>)
    requires LobbyOk(l) && forall i :: 0 <= i < |es| ==> !Swallowed(es[i])
    ensures LobbyOk(Run(l, es))
    decreases |es|
  {
    if es != [] {
      match es[0] {
        case CreateEvent(u, req, o) => CreateKeeps(l, u, req, o);
        case JoinEvent(u, req, o) => JoinKeeps(l, u, req, o);
        case LeaveEvent(u, req, o) => assert !Swallowed(es[0]); LeaveKeeps(l, u, req, o);
      }
      RunKeeps(Step(l, es[0]), es[1..]);
    }
  }

  /** Every run from an empty store in which no owner's update is swallowed keeps all rooms sound; other
      failed writes are allowed. */
  lemma LobbyInvariant(es: seq<Event>)
    requires forall i :: 0 <= i < |es| ==> !Swallowed(es[i])
    ensures LobbyOk(Run(EMPTY_LOBBY, es))
  {
    RunKeeps(EMPTY_LOBBY, es);
  }

  // ---------------------------------------------------------------- calls that undo each other

  lemma {:induction false} WithoutLast(players: seq<Player>, p: Player)
    requires !HasPlayer(players, p.userId)
    ensures Without(players + [p], p.userId) == players
  {
    if players == [] {
      assert players + [p] == [p];
    } else {
      assert players[0].userId != p.userId;
      assert (players + [p])[0] == players[0] && (players + [p])[1..] == players[1..] + [p];
      forall i | 0 <= i < |players[1..]| ensures players[1..][i].userId != p.userId {
        assert players[1..][i] == players[i + 1];
      }
      WithoutLast(players[1..], p);
    }
  }

  /** A join that succeeds, followed by a leave of the same user, puts the lobby back as it was. */
  lemma JoinThenLeave(l: LobbyState, u: nat, req: JoinRequest, o: Outcome, o': Outcome)
    requires LobbyOk(l) && Join(l, u, Some(req), o).1 == 0 && o'.pullOk
    ensures Leave(Join(l, u, Some(req), o).0, u, Some(req.roomId), o') == (l, 0)
  {
    var r := l.rooms[req.roomId];
    var joiner := Joiner(u, o.user.value, o.now);
    var r' := Push(r, joiner);
    assert r'.players[|r.players|] == joiner && HasPlayer(r'.players, u);
    WithoutLast(r.players, joiner);
    assert l.rooms[req.roomId := r'][req.roomId := r] == l.rooms;
  }

  /** The maker of a room who leaves it before anyone joins leaves no trace but the used id. */
  lemma CreateThenLeave(l: LobbyState, u: nat, req: Option<CreateRequest>, o: Outcome, o': Outcome)
    requires LobbyOk(l) && l.nextRoomId > 0 && Create(l, u, req, o).1 == 0 && o'.deleteOk
    ensures Leave(Create(l, u, req, o).0, u, Some(l.nextRoomId), o') == (l.(nextRoomId := l.nextRoomId + 1), 0)
  {
    var room := NewRoom(l.nextRoomId, u, req.value, o.user.value, o.now);
    assert room.players[0].userId == u && HasPlayer(room.players, u);
    assert l.rooms[l.nextRoomId := room] - {l.nextRoomId} == l.rooms;
  }

  /** r' is r with one more player at the end, not ready yet. */
  predicate Joined(r: Room, r': Room, u: nat, user: UserInfo, now: int) {
    && r' == r.(players := r'.players, currentPlayers := r.currentPlayers + 1)
    && |r'.players| == |r.players| + 1 && r'.players[..|r.players|] == r.players
    && var p := r'.players[|r.players|];
       p.userId == u && p.nickname == user.nickname && p.level == user.level && p.status == 0 && p.joinTime == now
  }

  /** Who may join: with a known user and a working store, exactly those outside an existing, waiting room
      with a free place who know its password if it is private. The room then has them and all it had before. */
  lemma JoinExact(l: LobbyState, u: nat, req: JoinRequest, o: Outcome)
    requires LobbyOk(l) && u != 0 && req.roomId != 0 && o.user.Some? && o.pushOk
    ensures var (l', code) := Join(l, u, Some(req), o);
            && (code == 0 <==>
                  && req.roomId in l.rooms
                  && var r := l.rooms[req.roomId];
                     r.status == 0 && |r.players| < r.maxPlayers && !HasPlayer(r.players, u)
                     && (r.isPrivate ==> r.password == req.password))
            && (code != 0 ==> l' == l)
            && (code == 0 ==>
                  && l'.rooms.Keys == l.rooms.Keys
                  && (forall id :: id in l.rooms && id != req.roomId ==> l'.rooms[id] == l.rooms[id])
                  && Joined(l.rooms[req.roomId], l'.rooms[req.roomId], u, o.user.value, o.now)
                  && forall v :: HasPlayer(l'.rooms[req.roomId].players, v)
                                 <==> v == u || HasPlayer(l.rooms[req.roomId].players, v))
  {
    var (l', code) := Join(l, u, Some(req), o);
    if code == 0 {
      var before, after := l.rooms[req.roomId].players, l'.rooms[req.roomId].players;
      forall v ensures HasPlayer(after, v) <==> v == u || HasPlayer(before, v) {
        if HasPlayer(before, v) {
          var i :| 0 <= i < |before| && before[i].userId == v;
          assert after[i] == before[i];
        }
        assert after[|before|].userId == u;
      }
    }
  }

  /** The room that u asked for, with him as its only player. */
  predicate AsAsked(r: Room, id: nat, u: nat, req: CreateRequest, user: UserInfo, now: int) {
    && r.roomId == id && r.name == req.name && r.gameType == req.gameType && r.maxPlayers == req.maxPlayers
    && r.isPrivate == req.isPrivate && r.password == req.password
    && r.status == 0 && r.currentPlayers == 1 && r.ownerId == u && |r.players| == 1
    && r.players[0].userId == u && r.players[0].nickname == user.nickname && r.players[0].level == user.level
    && r.players[0].status == 1 && r.players[0].joinTime == now
  }

  /** When a create succeeds and what it stores: exactly the room asked for, under the id drawn, with its maker
      as owner and only player, waiting. Nothing else changes but the next id, which a failed insert uses up. */
  lemma CreateExact(l: LobbyState, u: nat, req: CreateRequest, o: Outcome)
    requires LobbyOk(l)
    ensures var (l', code) := Create(l, u, Some(req), o);
            && (code == 0 <==>
                  && u != 0 && req.name != "" && 2 <= req.maxPlayers <= 8 && (req.isPrivate ==> req.password != "")
                  && o.user.Some? && o.insertOk)
            && (code == 0 ==>
                  && l.nextRoomId !in l.rooms && l'.rooms.Keys == l.rooms.Keys + {l.nextRoomId}
                  && (forall i :: i in l.rooms ==> l'.rooms[i] == l.rooms[i])
                  && AsAsked(l'.rooms[l.nextRoomId], l.nextRoomId, u, req, o.user.value, o.now)
                  && l'.nextRoomId == l.nextRoomId + 1)
            && (code != 0 ==> l'.rooms == l.rooms && l'.nextRoomId == l.nextRoomId + if code == -7 then 1 else 0)
  {
  }

  /** With a known user and a working store, another user gets into a room just made iff it is not private or
      he gives its maker's password. */
  lemma CreateThenJoin(l: LobbyState, u: nat, req: CreateRequest, o: Outcome, v: nat, password: string, o': Outcome)
    requires LobbyOk(l) && l.nextRoomId > 0 && Create(l, u, Some(req), o).1 == 0
    requires v != 0 && v != u && o'.user.Some? && o'.pushOk
    ensures var made := Create(l, u, Some(req), o).0;
            Join(made, v, Some(JoinRequest(l.nextRoomId, password)), o').1 == 0
            <==> !req.isPrivate || password == req.password
  {
    CreateExact(l, u, req, o);
    CreateKeeps(l, u, Some(req), o);
    var made := Create(l, u, Some(req), o).0;
    JoinExact(made, v, JoinRequest(l.nextRoomId, password), o');
    hide Create, Join;
    assert !HasPlayer(made.rooms[l.nextRoomId].players, v);
  }

  // ---------------------------------------------------------------- answer codes

  /** A refusal of a create names something that is the case. */
  lemma CreateRefusal(l: LobbyState, u: nat, req: Option<CreateRequest>, o: Outcome)
    ensures var code := Create(l, u, req, o).1;
            && -7 <= code <= 0
            && (code == -1 <==> u == 0)
            && (code == -2 ==> req.None?)
            && (code < -2 ==> req.Some?)
            && (code == -3 ==> req.value.name == "")
            && (code == -4 ==> req.value.maxPlayers < 2 || req.value.maxPlayers > 8)
            && (code == -5 ==> req.value.isPrivate && req.value.password == "")
            && (code == -6 ==> o.user.None?)
            && (code == -7 ==> !o.insertOk || l.nextRoomId in l.rooms)
  {
  }

  lemma JoinRefusal(l: LobbyState, u: nat, req: Option<JoinRequest>, o: Outcome)
    ensures var code := Join(l, u, req, o).1;
            && -10 <= code <= 0
            && (code == -1 <==> u == 0)
            && (code == -2 ==> req.None?)
            && (code < -2 ==> req.Some?)
            && (code == -3 ==> req.value.roomId == 0)
            && (code == -4 ==> req.value.roomId !in l.rooms)
            && (code < -4 ==> req.value.roomId in l.rooms)
            && (code == -5 ==> l.rooms[req.value.roomId].status != 0)
            && (code == -6 ==> l.rooms[req.value.roomId].currentPlayers >= l.rooms[req.value.roomId].maxPlayers)
            && (code == -7 ==> HasPlayer(l.rooms[req.value.roomId].players, u))
            && (code == -8 ==> l.rooms[req.value.roomId].isPrivate
                               && l.rooms[req.value.roomId].password != req.value.password)
            && (code == -9 ==> o.user.None?)
            && (code == -10 ==> !o.pushOk)
  {
  }

  /** A leave is refused for what its code says, and in a sound lobby answered with success iff the user is in
      the room and the first write it needs succeeds. */
  lemma LeaveRefusal(l: LobbyState, u: nat, req: Option<nat>, o: Outcome)
    ensures var code := Leave(l, u, req, o).1;
            && -8 <= code <= 0
            && (code == -1 <==> u == 0)
            && (code == -2 ==> req.None?)
            && (code < -2 ==> req.Some?)
            && (code == -3 ==> req.value == 0)
            && (code == -4 ==> req.value !in l.rooms)
            && (code < -4 ==> req.value in l.rooms)
            && (code == -5 ==> !HasPlayer(l.rooms[req.value].players, u))
            && (code == -6 ==> l.rooms[req.value].ownerId == u && l.rooms[req.value].currentPlayers <= 1 && !o.deleteOk)
            && (code == -7 ==> l.rooms[req.value].ownerId == u && l.rooms[req.value].currentPlayers > 1 && !o.pullOk)
            && (code == -8 ==> l.rooms[req.value].ownerId != u && !o.pullOk)
            && (code != 0 ==> Leave(l, u, req, o).0 == l)
  {
  }

  lemma LeaveExact(l: LobbyState, u: nat, id: nat, o: Outcome)
    requires LobbyOk(l) && u != 0 && id != 0
    ensures Leave(l, u, Some(id), o).1 == 0 <==>
              && id in l.rooms && HasPlayer(l.rooms[id].players, u)
              && if l.rooms[id].ownerId == u && l.rooms[id].currentPlayers <= 1 then o.deleteOk else o.pullOk
  {
    if id in l.rooms && l.rooms[id].ownerId == u && l.rooms[id].currentPlayers > 1 {
      HeirExists(l.rooms[id]);
    }
  }

  // ---------------------------------------------------------------- departures, exactly

  /** A leave answered with success, all writes having succeeded, takes the user out of the room unless
      he owns a room that others share: then only the owner changes, and he is still a member. */
  lemma DepartureExact(l: LobbyState, u: nat, id: nat, o: Outcome)
    requires LobbyOk(l) && Leave(l, u, Some(id), o).1 == 0 && o.updateOk
    ensures var l' := Leave(l, u, Some(id), o).0;
            var r := l.rooms[id];
            (id in l'.rooms && HasPlayer(l'.rooms[id].players, u)) <==> (r.ownerId == u && r.currentPlayers > 1)
    ensures var l' := Leave(l, u, Some(id), o).0;
            var r := l.rooms[id];
            r.ownerId == u && r.currentPlayers > 1 ==>
              exists k: nat :: IsHeir(r, k) && l'.rooms == l.rooms[id := r.(ownerId := r.players[k].userId)]
    ensures var l' := Leave(l, u, Some(id), o).0;
            var r := l.rooms[id];
            r.ownerId != u ==>
              exists k :: 0 <= k < |r.players| && r.players[k].userId == u
                && l'.rooms == l.rooms[id := r.(players := r.players[..k] + r.players[k + 1..],
                                                currentPlayers := r.currentPlayers - 1)]
    ensures var l' := Leave(l, u, Some(id), o).0;
            l.rooms[id].ownerId == u && l.rooms[id].currentPlayers <= 1 ==> l'.rooms == l.rooms - {id}
  {
    var r := l.rooms[id];
    if r.ownerId != u {
      PullOk(r, u);
      var k := PullRest(r, u);
    } else if r.currentPlayers > 1 {
      HeirExists(r);
      var k := if r.players[0].userId != u then 0 else 1;
      FirstOtherExact(r.players, u, k);
      assert IsHeir(r, k);
    }
  }

  /** Player k is the first one who is not the owner. */
  predicate IsHeir(r: Room, k: nat) {
    k < |r.players| && r.players[k].userId != r.ownerId
    && forall i :: 0 <= i < k ==> r.players[i].userId == r.ownerId
  }

  /** When an owner leaves a shared room and is pulled, the lobby stays sound iff the write of the new owner
      succeeds. */
  lemma OwnerUpdateExact(l: LobbyState, u: nat, id: nat, o: Outcome)
    requires LobbyOk(l) && u != 0 && id in l.rooms && id != 0
    requires l.rooms[id].ownerId == u && l.rooms[id].currentPlayers > 1 && o.pullOk
    ensures LobbyOk(Leave(l, u, Some(id), o).0) <==> o.updateOk
  {
    var r := l.rooms[id];
    HeirExists(r);
    if o.updateOk {
      LeaveKeeps(l, u, Some(id), o);
    } else {
      var l' := Leave(l, u, Some(id), o).0;
      var k :| 0 <= k < |r.players| && r.players[k].userId == u;
      WithoutPresent(r.players, u, k);
      assert !HasPlayer(l'.rooms[id].players, u);
      assert id in l'.rooms && !RoomOk(l'.rooms[id]);
    }
  }
}
