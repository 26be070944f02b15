/** Concurrent joins and leaves on one room. A request reads the room and checks its snapshot, and writes
    later; any other request may write in between. The owner stays: his departure is not a label here. */
module LobbyRace {
  import opened Wrappers
  import opened Lobby
  import opened LobbyRuns

  /** A request past its checks, with the write still to come. */
  datatype Request = Joining(player: Player) | Leaving(userId: nat)
  {
    function User(): nat {
      if Joining? then player.userId else userId
    }
  }

  datatype RoomState = RoomState(room: Room, pending: map<nat, Request>)

  datatype RoomLabel =
    | JoinRead(rid: nat, userId: nat, password: string, user: Option<UserInfo>, now: int)
    | LeaveRead(rid: nat, userId: nat)
    | Write(rid: nat)
    | WriteFails(rid: nat)

  predicate Enabled(s: RoomState, l: RoomLabel) {
    match l
    case JoinRead(rid, u, _, _, _) => rid !in s.pending && u != 0
    case LeaveRead(rid, u) => rid !in s.pending && u != 0 && u != s.room.ownerId
    case Write(rid) => rid in s.pending
    case WriteFails(rid) => rid in s.pending
  }

  function Next(s: RoomState, l: RoomLabel): RoomState {
    if !Enabled(s, l) then s else
    match l
    case JoinRead(rid, u, password, user, now) =>
      if JoinCode(s.room, u, password, user) == 0
      then s.(pending := s.pending[rid := Joining(Joiner(u, user.value, now))])
      else s
    case LeaveRead(rid, u) =>
      if HasPlayer(s.room.players, u) then s.(pending := s.pending[rid := Leaving(u)]) else s
    case Write(rid) =>
      RoomState(
        match s.pending[rid] {
          case Joining(player) => Push(s.room, player)
          case Leaving(u) => Pull(s.room, u)
        },
        s.pending - {rid})
    case WriteFails(rid) => s.(pending := s.pending - {rid})
  }

  function Race(s: RoomState, ls: seq<RoomLabel>): RoomState
    decreases |ls|
  {
    if ls == [] then s else Race(Next(s, ls[0]), ls[1..])
  }

  // ---------------------------------------------------------------- the overshoot bound

  function Joins(s: RoomState): set<nat> {
    set r | r in s.pending && s.pending[r].Joining?
  }

  /** At most n joins are between snapshot and write in any state of the run. */
  predicate JoinsWithin(s: RoomState, ls: seq<RoomLabel>, n: nat)
    decreases |ls|
  {
    |Joins(s)| <= n && (ls == [] || JoinsWithin(Next(s, ls[0]), ls[1..], n))
  }

  /** Only a join's read adds to the joins in flight; only a join's write adds a player, and it leaves them. */
  lemma NextJoins(s: RoomState, l: RoomLabel)
    requires Enabled(s, l)
    ensures l.JoinRead? ==> Next(s, l).room == s.room
    ensures l.LeaveRead? ==> Joins(Next(s, l)) == Joins(s)
    ensures l.Write? || l.WriteFails? ==> Joins(Next(s, l)) == Joins(s) - {l.rid}
  {
  }

  lemma NextRoom(s: RoomState, l: RoomLabel)
    ensures Next(s, l).room.maxPlayers == s.room.maxPlayers
    ensures Next(s, l).room.currentPlayers
            <= s.room.currentPlayers + if l.Write? && l.rid in Joins(s) then 1 else 0
  {
  }

  lemma NextOvershoot(s: RoomState, l: RoomLabel, n: nat)
    requires n >= 1 && |Joins(s)| <= n && |Joins(Next(s, l))| <= n
    requires s.room.currentPlayers + |Joins(s)| <= s.room.maxPlayers + n - 1
    ensures Next(s, l).room.currentPlayers + |Joins(Next(s, l))| <= s.room.maxPlayers + n - 1
    ensures Next(s, l).room.maxPlayers == s.room.maxPlayers
  {
    NextRoom(s, l);
    if Enabled(s, l) {
      NextJoins(s, l);
    }
  }

  lemma {:induction false} RaceOvershoot(s: RoomState, ls: seq<RoomLabel>, n: nat)
    requires n >= 1 && JoinsWithin(s, ls, n)
    requires s.room.currentPlayers + |Joins(s)| <= s.room.maxPlayers + n - 1
    ensures Race(s, ls).room.currentPlayers <= s.room.maxPlayers + n - 1
    decreases |ls|
  {
    if ls != [] {
      assert JoinsWithin(Next(s, ls[0]), ls[1..], n);
      NextOvershoot(s, ls[0], n);
      RaceOvershoot(Next(s, ls[0]), ls[1..], n);
    }
  }

  /** However joins and leaves interleave, the count exceeds the maximum by less than the number of joins
      racing at once; a single join at a time never exceeds it. */
  lemma OvershootBound(room: Room, ls: seq<RoomLabel>, n: nat)
    requires n >= 1 && room.currentPlayers <= room.maxPlayers && JoinsWithin(RoomState(room, map[]), ls, n)
    ensures Race(RoomState(room, map[]), ls).room.currentPlayers <= room.maxPlayers + n - 1
  {
    assert Joins(RoomState(room, map[])) == {};
    RaceOvershoot(RoomState(room, map[]), ls, n);
  }

  // ---------------------------------------------------------------- the bound is attained

  lemma {:induction false} RaceAppend(s: RoomState, a: seq<RoomLabel>, b: seq<RoomLabel>)
    ensures Race(s, a + b) == Race(Race(s, a), b)
    decreases |a|
  {
    if a == [] {
      assert a + b == b;
    } else {
      assert (a + b)[1..] == a[1..] + b;
      RaceAppend(Next(s, a[0]), a[1..], b);
    }
  }

  lemma {:induction false} WithinAppend(s: RoomState, a: seq<RoomLabel>, b: seq<RoomLabel>, n: nat)
    requires JoinsWithin(s, a, n) && JoinsWithin(Race(s, a), b, n)
    ensures JoinsWithin(s, a + b, n)
    decreases |a|
  {
    if a == [] {
      assert a + b == b;
    } else {
      assert (a + b)[1..] == a[1..] + b;
      WithinAppend(Next(s, a[0]), a[1..], b, n);
    }
  }

  /** Requests lo..hi-1 read, or write, one after the other; request r is made by user base + r. */
  function Reads(lo: nat, hi: nat, base: nat): seq<RoomLabel>
    requires lo <= hi
    decreases hi - lo
  {
    if lo == hi then [] else [JoinRead(lo, base + lo, "", Some(UserInfo("", 0)), 0)] + Reads(lo + 1, hi, base)
  }

  function Writes(lo: nat, hi: nat): seq<RoomLabel>
    requires lo <= hi
    decreases hi - lo
  {
    if lo == hi then [] else [Write(lo)] + Writes(lo + 1, hi)
  }

  ghost predicate OpenBelow(room: Room, base: nat) {
    && base > 0 && room.status == 0 && !room.isPrivate && room.currentPlayers < room.maxPlayers
    && forall i :: 0 <= i < |room.players| ==> room.players[i].userId < base
  }

  /** Exactly requests lo..hi-1 are pending, all of them joins. */
  ghost predicate PendingJoins(s: RoomState, lo: nat, hi: nat) {
    forall r :: (r in s.pending <==> lo <= r < hi) && (r in s.pending ==> s.pending[r].Joining?)
  }

  lemma {:induction false} JoinsCount(s: RoomState, lo: nat, hi: nat)
    requires lo <= hi && PendingJoins(s, lo, hi)
    ensures |Joins(s)| == hi - lo
    decreases hi
  {
    if lo == hi {
      assert Joins(s) == {};
    } else {
      var t := s.(pending := s.pending - {hi - 1});
      assert Joins(s) == Joins(t) + {hi - 1};
      JoinsCount(t, lo, hi - 1);
    }
  }

  lemma {:induction false} ReadsAdmit(s: RoomState, lo: nat, hi: nat, base: nat)
    requires lo <= hi && OpenBelow(s.room, base) && PendingJoins(s, 0, lo)
    ensures JoinsWithin(s, Reads(lo, hi, base), hi)
    ensures var t := Race(s, Reads(lo, hi, base)); t.room == s.room && PendingJoins(t, 0, hi)
    decreases hi - lo
  {
    JoinsCount(s, 0, lo);
    if lo < hi {
      var l := JoinRead(lo, base + lo, "", Some(UserInfo("", 0)), 0);
      assert JoinCode(s.room, base + lo, "", Some(UserInfo("", 0))) == 0;
      assert Reads(lo, hi, base)[0] == l && Reads(lo, hi, base)[1..] == Reads(lo + 1, hi, base);
      ReadsAdmit(Next(s, l), lo + 1, hi, base);
    }
  }

  lemma {:induction false} WritesAdd(s: RoomState, lo: nat, hi: nat)
    requires lo <= hi && PendingJoins(s, lo, hi)
    ensures JoinsWithin(s, Writes(lo, hi), hi)
    ensures var t := Race(s, Writes(lo, hi));
            && t.pending == map[]
            && t.room.currentPlayers == s.room.currentPlayers + hi - lo && t.room.maxPlayers == s.room.maxPlayers
    decreases hi - lo
  {
    JoinsCount(s, lo, hi);
    if lo == hi {
      assert s.pending.Keys == {};
    } else {
      assert Writes(lo, hi)[0] == Write(lo) && Writes(lo, hi)[1..] == Writes(lo + 1, hi);
      WritesAdd(Next(s, Write(lo)), lo + 1, hi);
    }
  }

  /** n joins that all read before any of them writes all get in. */
  lemma Rush(room: Room, n: nat, base: nat)
    requires OpenBelow(room, base)
    ensures var s := RoomState(room, map[]);
            var ls := Reads(0, n, base) + Writes(0, n);
            JoinsWithin(s, ls, n) && Race(s, ls).room.currentPlayers == room.currentPlayers + n
  {
    var s := RoomState(room, map[]);
    ReadsAdmit(s, 0, n, base);
    var mid := Race(s, Reads(0, n, base));
    WritesAdd(mid, 0, n);
    RaceAppend(s, Reads(0, n, base), Writes(0, n));
    WithinAppend(s, Reads(0, n, base), Writes(0, n), n);
  }

  /** The overshoot bound is exact: from any open room with one free place, n racing joins reach it. */
  lemma OvershootAttained(room: Room, n: nat, base: nat)
    requires OpenBelow(room, base) && room.currentPlayers == room.maxPlayers - 1
    ensures exists ls :: JoinsWithin(RoomState(room, map[]), ls, n)
                         && Race(RoomState(room, map[]), ls).room.currentPlayers == room.maxPlayers + n - 1
  {
    Rush(room, n, base);
  }

  // ---------------------------------------------------------------- membership

  /** No user has two requests in flight. */
  predicate OnePerUser(s: RoomState) {
    forall q, r :: q in s.pending && r in s.pending && q != r ==> s.pending[q].User() != s.pending[r].User()
  }

  predicate OnePerUserAlong(s: RoomState, ls: seq<RoomLabel>)
    decreases |ls|
  {
    OnePerUser(s) && (ls == [] || OnePerUserAlong(Next(s, ls[0]), ls[1..]))
  }

  ghost predicate Members(r: Room) {
    DistinctIds(r.players) && r.currentPlayers == |r.players| && HasPlayer(r.players, r.ownerId)
  }

  /** A pending join is by a user outside the room, a pending leave by a member who is not the owner. */
  ghost predicate Consistent(s: RoomState) {
    && Members(s.room)
    && forall r :: r in s.pending ==>
         match s.pending[r]
         case Joining(p) => !HasPlayer(s.room.players, p.userId)
         case Leaving(u) => HasPlayer(s.room.players, u) && u != s.room.ownerId
  }

  lemma PushMembers(r: Room, p: Player)
    requires Members(r) && !HasPlayer(r.players, p.userId)
    ensures Members(Push(r, p))
    ensures forall u :: HasPlayer(Push(r, p).players, u) <==> HasPlayer(r.players, u) || u == p.userId
  {
    var after := Push(r, p).players;
    forall u ensures HasPlayer(after, u) <==> HasPlayer(r.players, u) || u == p.userId {
      if HasPlayer(r.players, u) {
        var i :| 0 <= i < |r.players| && r.players[i].userId == u;
        assert after[i].userId == u;
      }
      assert after[|r.players|] == p;
    }
  }

  lemma PullMembers(r: Room, u: nat)
    requires Members(r) && HasPlayer(r.players, u) && u != r.ownerId
    ensures Members(Pull(r, u))
    ensures forall v :: HasPlayer(Pull(r, u).players, v) <==> HasPlayer(r.players, v) && v != u
  {
    var k := PullRest(r, u);
    forall v ensures HasPlayer(Pull(r, u).players, v) <==> HasPlayer(r.players, v) && v != u {
      RestMembers(r.players, k, v);
    }
  }

  lemma NextConsistent(s: RoomState, l: RoomLabel)
    requires Consistent(s) && OnePerUser(s)
    ensures Consistent(Next(s, l))
  {
    if Enabled(s, l) && l.Write? {
      match s.pending[l.rid]
      case Joining(p) => PushMembers(s.room, p);
      case Leaving(u) => PullMembers(s.room, u);
    }
  }

  lemma {:induction false} RaceConsistent(s: RoomState, ls: seq<RoomLabel>)
    requires Consistent(s) && OnePerUserAlong(s, ls)
    ensures Consistent(Race(s, ls))
    decreases |ls|
  {
    if ls != [] {
      assert OnePerUserAlong(Next(s, ls[0]), ls[1..]);
      NextConsistent(s, ls[0]);
      RaceConsistent(Next(s, ls[0]), ls[1..]);
    }
  }

  /** With at most one request per user in flight, ids stay distinct, the count stays the length of the list
      and the owner stays a member, although both updates are unguarded. */
  lemma MembershipConsistent(room: Room, ls: seq<RoomLabel>)
    requires Members(room) && OnePerUserAlong(RoomState(room, map[]), ls)
    ensures Members(Race(RoomState(room, map[]), ls).room)
  {
    RaceConsistent(RoomState(room, map[]), ls);
  }

  predicate OnlyWrites(ls: seq<RoomLabel>) {
    forall i :: 0 <= i < |ls| ==> ls[i].Write? || ls[i].WriteFails?
  }

  lemma {:induction false} WritesKeepOne(s: RoomState, ls: seq<RoomLabel>)
    requires OnePerUser(s) && OnlyWrites(ls)
    ensures OnePerUserAlong(s, ls)
    decreases |ls|
  {
    if ls != [] {
      assert ls[0].Write? || ls[0].WriteFails?;
      assert forall i :: 0 <= i < |ls[1..]| ==> ls[1..][i] == ls[i + 1];
      WritesKeepOne(Next(s, ls[0]), ls[1..]);
    }
  }

  /** Two joins of one user put him in twice; two leaves of one user count twice. */
  lemma TwoWrites(s: RoomState, q: nat, r: nat)
    requires Consistent(s) && q in s.pending && r in s.pending && q != r
    requires s.pending[q].User() == s.pending[r].User()
    ensures !Members(Race(s, [Write(q), Write(r)]).room)
    ensures s.pending[q].Joining? ==> !DistinctIds(Race(s, [Write(q), Write(r)]).room.players)
    ensures s.pending[q].Leaving? ==>
              var t := Race(s, [Write(q), Write(r)]).room; t.currentPlayers == |t.players| - 1
  {
    RaceTwo(s, Write(q), Write(r));
    var t := Next(s, Write(q));
    var u := Next(t, Write(r));
    if s.pending[q].Joining? {
      assert s.pending[r].Joining?;
      var n := |s.room.players|;
      assert u.room.players[n].userId == u.room.players[n + 1].userId;
    } else {
      assert s.pending[r].Leaving?;
      PullMembers(s.room, s.pending[q].userId);
      WithoutAbsent(t.room.players, s.pending[q].userId);
    }
  }

  /** The condition is needed, exactly: however the writes that are pending land or fail, ids, count and owner
      stay right iff no user has two of them. */
  lemma MembershipExact(s: RoomState)
    requires Consistent(s)
    ensures (forall ls :: OnlyWrites(ls) ==> Members(Race(s, ls).room)) <==> OnePerUser(s)
  {
    if OnePerUser(s) {
      forall ls | OnlyWrites(ls) ensures Members(Race(s, ls).room) {
        WritesKeepOne(s, ls);
        RaceConsistent(s, ls);
      }
    } else {
      var q, r :| q in s.pending && r in s.pending && q != r && s.pending[q].User() == s.pending[r].User();
      TwoWrites(s, q, r);
      assert OnlyWrites([Write(q), Write(r)]);
    }
  }

  lemma RaceFour(s: RoomState, a: RoomLabel, b: RoomLabel, c: RoomLabel, d: RoomLabel)
    ensures Race(s, [a, b, c, d]) == Race(Next(Next(s, a), b), [c, d])
  {
    assert [a, b, c, d] == [a, b] + [c, d];
    RaceAppend(s, [a, b], [c, d]);
    RaceTwo(s, a, b);
  }

  /** Any member who is not the owner can do it with two leaves at once ... */
  lemma TwoLeavesBreakTheCount(room: Room, u: nat)
    requires Members(room) && HasPlayer(room.players, u) && u != room.ownerId && u != 0
    ensures var r := Race(RoomState(room, map[]), [LeaveRead(0, u), LeaveRead(1, u), Write(0), Write(1)]).room;
            r.currentPlayers == |r.players| - 1 && !Members(r)
  {
    var s := RoomState(room, map[]);
    RaceFour(s, LeaveRead(0, u), LeaveRead(1, u), Write(0), Write(1));
    TwoWrites(Next(Next(s, LeaveRead(0, u)), LeaveRead(1, u)), 0, 1);
  }

  /** ... and anyone who may join with two joins at once. */
  lemma TwoJoinsBreakTheIds(room: Room, u: nat, password: string, user: Option<UserInfo>, now: int)
    requires Members(room) && u != 0 && JoinCode(room, u, password, user) == 0
    ensures var join0, join1 := JoinRead(0, u, password, user, now), JoinRead(1, u, password, user, now);
            var r := Race(RoomState(room, map[]), [join0, join1, Write(0), Write(1)]).room;
            !DistinctIds(r.players) && !Members(r)
  {
    var s := RoomState(room, map[]);
    var join0, join1 := JoinRead(0, u, password, user, now), JoinRead(1, u, password, user, now);
    RaceFour(s, join0, join1, Write(0), Write(1));
    TwoWrites(Next(Next(s, join0), join1), 0, 1);
  }

  // ---------------------------------------------------------------- the service, uninterrupted

  lemma RaceTwo(s: RoomState, a: RoomLabel, b: RoomLabel)
    ensures Race(s, [a, b]) == Next(Next(s, a), b)
  {
    assert [a, b][1..] == [b];
    assert Race(Next(s, a), [b]) == Race(Next(Next(s, a), b), []);
  }

  /** A JoinRoom call that nothing interrupts is the read and then the write of this system, and touches no
      other room. */
  lemma JoinIsReadThenWrite(l: LobbyState, u: nat, id: nat, password: string, o: Outcome)
    requires u != 0 && id != 0 && id in l.rooms
    ensures var read := JoinRead(0, u, password, o.user, o.now);
            var write := if o.pushOk then Write(0) else WriteFails(0);
            var l' := Join(l, u, Some(JoinRequest(id, password)), o).0;
            var after := Race(RoomState(l.rooms[id], map[]), [read, write]);
            l' == l.(rooms := l.rooms[id := after.room]) && after.pending == map[]
  {
    var read := JoinRead(0, u, password, o.user, o.now);
    var write := if o.pushOk then Write(0) else WriteFails(0);
    RaceTwo(RoomState(l.rooms[id], map[]), read, write);
    assert l.rooms[id := l.rooms[id]] == l.rooms;
  }

  lemma LeaveIsReadThenWrite(l: LobbyState, u: nat, id: nat, o: Outcome)
    requires u != 0 && id != 0 && id in l.rooms && l.rooms[id].ownerId != u
    ensures var write := if o.pullOk then Write(0) else WriteFails(0);
            var l' := Leave(l, u, Some(id), o).0;
            var after := Race(RoomState(l.rooms[id], map[]), [LeaveRead(0, u), write]);
            l' == l.(rooms := l.rooms[id := after.room]) && after.pending == map[]
  {
    var write := if o.pullOk then Write(0) else WriteFails(0);
    RaceTwo(RoomState(l.rooms[id], map[]), LeaveRead(0, u), write);
    assert l.rooms[id := l.rooms[id]] == l.rooms;
  }
}
