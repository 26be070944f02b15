/** Whose socket the sweeper closes. It loads the object listed under an idle id and then closes the socket
    the object holds by then; in between, the object may have been put back, taken and bound again. */
module TcpSweep {
  import opened TcpServer
  import opened TcpInvariant

  /** The step gives the object to another connection. */
  predicate Rebinds<T(==)>(s: Server<T>, l: ServerLabel<T>, obj: T) {
    l.Accepting? && l.a.Bind? && s.accept.Holding? && s.accept.obj == obj
  }

  /** Some step of the run does. */
  predicate Rebound<T(==)>(s: Server<T>, ls: seq<ServerLabel<T>>, obj: T)
    decreases |ls|
  {
    ls != [] && (Rebinds(s, ls[0], obj) || Rebound(Next(s, ls[0]), ls[1..], obj))
  }

  /** Id k has been given to its object. */
  predicate PastBind<T(==)>(s: Server<T>, k: nat) {
    1 <= k <= s.connCounter && !(s.accept.Unbound() && s.accept.id == k)
  }

  lemma EarlyKeepsId<T>(s: Server<T>, l: AcceptLabel<T>, k: nat)
    requires PastBind(s, k) && Early(l)
    ensures var t := AcceptNext(s, l); PastBind(t, k) && t.heap == s.heap && !l.Bind?
  {
    EarlyQuiet(s, l);
    hide AcceptNext;
  }

  lemma LateKeepsId<T>(s: Server<T>, l: AcceptLabel<T>, obj: T, k: nat)
    requires PastBind(s, k) && obj in s.heap && !Early(l)
    ensures var t := AcceptNext(s, l);
            && PastBind(t, k) && obj in t.heap
            && (if Rebinds(s, Accepting(l), obj) then t.heap[obj].id != k else t.heap[obj].id == s.heap[obj].id)
  {
  }

  lemma AcceptKeepsId<T>(s: Server<T>, l: AcceptLabel<T>, obj: T, k: nat)
    requires PastBind(s, k) && obj in s.heap
    ensures var t := AcceptNext(s, l);
            && PastBind(t, k) && obj in t.heap
            && (if Rebinds(s, Accepting(l), obj) then t.heap[obj].id != k else t.heap[obj].id == s.heap[obj].id)
  {
    hide AcceptNext;
    if Early(l) {
      EarlyKeepsId(s, l, k);
    } else {
      LateKeepsId(s, l, obj, k);
    }
  }

  lemma HandlerKeepsId<T>(s: Server<T>, j: nat, l: HandlerLabel, obj: T)
    requires obj in s.heap
    ensures var t := HandlerNext(s, j, l);
            obj in t.heap && t.heap[obj].id == s.heap[obj].id && t.accept == s.accept && t.connCounter == s.connCounter
  {
  }

  lemma NextKeepsId<T>(s: Server<T>, l: ServerLabel<T>, obj: T, k: nat)
    requires Inv(s) && PastBind(s, k) && obj in s.heap
    ensures var t := Next(s, l);
            && PastBind(t, k) && obj in t.heap
            && (if Rebinds(s, l, obj) then t.heap[obj].id != k else t.heap[obj].id == s.heap[obj].id)
  {
    hide AcceptNext, HandlerNext, SweepNext, ControlNext;
    match l
    case Accepting(a) => AcceptKeepsId(s, a, obj, k);
    case Handling(j, h) => HandlerKeepsId(s, j, h, obj);
    case Sweeping(w) => SweepOutside(s, w);
    case Controlling(c) => ControlQuiet(s, c);
  }

  /** The object still carries k iff it did and no step bound it again. */
  lemma {:induction false} RunKeepsId<T>(s: Server<T>, ls: seq<ServerLabel<T>>, obj: T, k: nat)
    requires Inv(s) && PastBind(s, k) && obj in s.heap
    ensures var t := Run(s, ls);
            obj in t.heap && (t.heap[obj].id == k <==> s.heap[obj].id == k && !Rebound(s, ls, obj))
    decreases |ls|
  {
    hide Inv, Next;
    if ls != [] {
      NextInv(s, ls[0]);
      NextKeepsId(s, ls[0], obj, k);
      RunKeepsId(Next(s, ls[0]), ls[1..], obj, k);
    }
  }

  lemma AcceptKeepsSweep<T>(s: Server<T>, l: AcceptLabel<T>)
    ensures AcceptNext(s, l).sweep == s.sweep
  {
  }

  lemma HandlerKeepsSweep<T>(s: Server<T>, k: nat, l: HandlerLabel)
    ensures HandlerNext(s, k, l).sweep == s.sweep
  {
  }

  lemma ControlKeepsSweep<T>(s: Server<T>, l: ControlLabel)
    requires WaitCount(s) && !s.sweep.Off?
    ensures ControlNext(s, l).sweep == s.sweep
  {
  }

  lemma NextKeepsSweep<T>(s: Server<T>, l: ServerLabel<T>)
    requires WaitCount(s) && !s.sweep.Off? && !l.Sweeping?
    ensures Next(s, l).sweep == s.sweep
  {
    hide AcceptNext, HandlerNext, ControlNext;
    match l
    case Accepting(a) => AcceptKeepsSweep(s, a);
    case Handling(k, h) => HandlerKeepsSweep(s, k, h);
    case Controlling(c) => ControlKeepsSweep(s, c);
  }

  lemma {:induction false} RunKeepsSweep<T>(s: Server<T>, ls: seq<ServerLabel<T>>)
    requires Inv(s) && !s.sweep.Off? && forall i :: 0 <= i < |ls| ==> !ls[i].Sweeping?
    ensures Run(s, ls).sweep == s.sweep
    decreases |ls|
  {
    if ls != [] {
      NextInv(s, ls[0]);
      NextKeepsSweep(s, ls[0]);
      hide Inv, Next;
      RunKeepsSweep(Next(s, ls[0]), ls[1..]);
    }
  }

  // ---------------------------------------------------------------- main results

  /** In every run, each close by the sweeper hit the socket of the connection that occupied the object then,
      which is the socket of the id it was meant for iff the object still carried that id. */
  lemma KickedExact<T>(maxConns: nat, ls: seq<ServerLabel<T>>)
    ensures var s := Run(Init<T>(maxConns), ls);
            forall p :: p in s.kicked ==>
              && p.id in s.sockOf && p.occupant in s.sockOf && p.sock == s.sockOf[p.occupant]
              && (p.sock == s.sockOf[p.id] <==> p.occupant == p.id)
  {
    hide Run;
    Reachable(maxConns, ls);
  }

  lemma KickClosed<T>(s: Server<T>)
    requires Inv(s) && s.sweep.Loaded?
    ensures var k, obj, t := s.sweep.k, s.sweep.obj, SweepNext(s, KickClose);
            && obj in s.heap && k in s.sockOf
            && t.kicked == s.kicked + [Kicked(k, s.heap[obj].sock, s.heap[obj].id)]
            && t.closedSocks == s.closedSocks + {s.heap[obj].sock}
            && (s.heap[obj].sock == s.sockOf[k] <==> s.heap[obj].id == k)
  {
    hide Ownership, Numbering, Identity, Listed, WaitCount, Capacity, PutBack, Closes;
    KickSteps(s);
    hide SweepNext;
    assert CarriedBy(s, s.sweep.obj, s.heap[s.sweep.obj]);
  }

  /** What loading does: the object carries k, which is past its binding. */
  lemma KickLoaded<T>(s: Server<T>)
    requires Inv(s) && s.sweep.Kicking? && s.sweep.expired != [] && s.sweep.expired[0] in s.connections
    ensures var k, t := s.sweep.expired[0], SweepNext(s, KickLoad);
            && t.sweep == Loaded(k, s.connections[k], s.sweep.expired[1..])
            && s.connections[k] in t.heap && t.heap[s.connections[k]].id == k && PastBind(t, k)
  {
    ListedObject(s, s.sweep.expired[0]);
    assert PastBind(s, s.sweep.expired[0]);
    KickSteps(s);
    hide SweepNext, Ownership, Numbering, Sockets, Identity, Carried, Listed, WaitCount, Capacity, PutBack, Closes,
         Tracking;
  }

  /** Between loading the object of k and closing it, whatever the others do: the sweeper closes the socket
      accepted as k iff the object has not been bound to another connection meanwhile. A test of the object's
      id against k before the close would tell. */
  lemma SweepExact<T>(maxConns: nat, before: seq<ServerLabel<T>>, between: seq<ServerLabel<T>>)
    requires var s := Run(Init<T>(maxConns), before);
             s.sweep.Kicking? && s.sweep.expired != [] && s.sweep.expired[0] in s.connections
    requires forall i :: 0 <= i < |between| ==> !between[i].Sweeping?
    ensures var s := Run(Init<T>(maxConns), before);
            var k, obj := s.sweep.expired[0], s.connections[s.sweep.expired[0]];
            var loaded := SweepNext(s, KickLoad);
            var t := Run(loaded, between);
            && obj in t.heap && k in t.sockOf
            && SweepNext(t, KickClose).kicked == t.kicked + [Kicked(k, t.heap[obj].sock, t.heap[obj].id)]
            && SweepNext(t, KickClose).closedSocks == t.closedSocks + {t.heap[obj].sock}
            && (t.heap[obj].sock == t.sockOf[k] <==> t.heap[obj].id == k)
            && (t.heap[obj].sock == t.sockOf[k] <==> !Rebound(loaded, between, obj))
  {
    hide Run, Inv, SweepNext, PastBind, Rebound;
    var s := Run(Init<T>(maxConns), before);
    Reachable(maxConns, before);
    var loaded := SweepNext(s, KickLoad);
    KickLoaded(s);
    SweepInv(s, KickLoad);
    RunKeepsId(loaded, between, s.connections[s.sweep.expired[0]], s.sweep.expired[0]);
    RunKeepsSweep(loaded, between);
    RunInv(loaded, between);
    KickClosed(Run(loaded, between));
  }

  // ---------------------------------------------------------------- a later occupant is hit

  /** The accept loop takes a socket up to the Get, with nothing listed. */
  lemma Admits(s: Server<nat>, t: Server<nat>, sock: nat)
    requires Leads(s, t) && t.accept.Head? && t.running && sock !in t.arrived && t.connections == map[]
             && t.maxConns > 0
    ensures Leads(s, Drawn(t.(accept := UnderCap(sock), arrived := t.arrived + {sock})))
  {
    hide Leads;
    Follow(s, t, Accepting(Enter));
    var t1 := t.(accept := Blocked);
    Follow(s, t1, Accepting(Arrive(sock)));
    var t2 := t1.(accept := Accepted(sock), arrived := t.arrived + {sock});
    Follow(s, t2, Accepting(BeginCount));
    var t3 := t2.(accept := Counting(sock, t.connections.Keys, {}));
    Follow(s, t3, Accepting(EndCount));
    var t4 := t3.(accept := UnderCap(sock));
    assert t3.closedSocks + {} == t3.closedSocks;
    Follow(s, t4, Accepting(Number));
  }

  /** ... binds the object it has got, and spawns its handler. */
  lemma Serves(s: Server<nat>, t: Server<nat>, now: int)
    requires Leads(s, t) && t.accept.Holding?
    ensures Leads(s, Spawned(Awaited(InMap(BoundTo(t, now)))))
  {
    hide Leads;
    Follow(s, t, Accepting(Bind(now)));
    Follow(s, BoundTo(t, now), Accepting(Store));
    Follow(s, InMap(BoundTo(t, now)), Accepting(Add));
    Follow(s, Awaited(InMap(BoundTo(t, now))), Accepting(Spawn));
  }

  /** The handler of k runs its clean-up. */
  lemma Shuts(s: Server<nat>, t: Server<nat>, k: nat)
    requires Leads(s, t) && Live(t, k) && t.handlers[k].phase == Serving
    ensures Leads(s, Unlisted(Shut(t, k), k))
  {
    hide Leads;
    Follow(s, t, Handling(k, Close));
    Follow(s, Shut(t, k), Handling(k, Delete));
  }

  lemma Puts(s: Server<nat>, t: Server<nat>, k: nat)
    requires Leads(s, t) && Live(t, k) && t.handlers[k].phase == Deleted
    ensures Leads(s, PutOffered(PutCleared(PutCounted(t, k), k), k))
  {
    hide Leads;
    Follow(s, t, Handling(k, PutCount));
    Follow(s, PutCounted(t, k), Handling(k, PutReset));
    Follow(s, PutCleared(PutCounted(t, k), k), Handling(k, PutOffer));
  }

  /** The sweeper finds k idle and loads its object. */
  lemma Finds(s: Server<nat>, t: Server<nat>, k: nat, now: int)
    requires Leads(s, t) && t.sweep.Idle? && k in t.connections && t.connections[k] in t.heap
    requires now - t.heap[t.connections[k]].lastActivity > IDLE_LIMIT
    ensures Leads(s, t.(sweep := Loaded(k, t.connections[k], [])))
  {
    hide Leads;
    Follow(s, t, Sweeping(Tick(now)));
    var t1 := t.(sweep := Scanning(now, []));
    Follow(s, t1, Sweeping(Look(k)));
    var t2 := t.(sweep := Looking(now, [], k, t.connections[k]));
    Follow(s, t2, Sweeping(Inspect));
    assert [] + [k] == [k];
    var t3 := t.(sweep := Scanning(now, [k]));
    Follow(s, t3, Sweeping(EndScan));
    var t4 := t.(sweep := Kicking([k]));
    Follow(s, t4, Sweeping(KickLoad));
    assert [k][1..] == [];
  }

  /** The server with connection 1 on object 0. */
  ghost predicate First(t: Server<nat>, sock: nat) {
    && t.accept.Head? && t.running && t.sweep.Idle? && t.maxConns == 1 && t.wg == 3 && t.connCounter == 1
    && t.pool.free == [] && t.pool.maxSize == 1
    && t.arrived == {sock} && t.sockOf == map[1 := sock] && t.kicked == []
    && t.connections == map[1 := 0] && t.handlers == map[1 := Handler(0, Serving)]
    && t.heap == map[0 := Record(1, 0, "", 0, sock)]
  }

  lemma Starts() returns (t: Server<nat>)
    ensures Leads(Init<nat>(1), t)
    ensures t == Init<nat>(1).(running := true, wg := 2, accept := Head, sweep := Idle)
  {
    var s := Init<nat>(1);
    assert Run(s, []) == s;
    assert Leads(s, s);
    hide Leads;
    Follow(s, s, Controlling(Start));
    t := s.(running := true, wg := 2, accept := Head, sweep := Idle);
  }

  /** The pool has nothing idle and makes object 0. */
  lemma Makes(s: Server<nat>, t: Server<nat>)
    requires Leads(s, t) && t.accept.Getting? && t.pool.free == [] && t.pool.created < t.pool.maxSize && 0 !in t.heap
    ensures Leads(s, t.(accept := Holding(t.accept.sock, t.accept.id, 0), heap := t.heap[0 := BLANK],
                        pool := t.pool.(created := t.pool.created + 1)))
  {
    hide Leads;
    Follow(s, t, Accepting(Miss));
    Follow(s, t.(accept := Missing(t.accept.sock, t.accept.id)), Accepting(Create(0)));
  }

  lemma FirstObject(sock: nat) returns (t: Server<nat>)
    ensures Leads(Init<nat>(1), t) && t.accept == Holding(sock, 1, 0)
    ensures t.running && t.sweep.Idle? && t.maxConns == 1 && t.wg == 2 && t.connCounter == 1
    ensures t.pool.free == [] && t.pool.maxSize == 1 && t.arrived == {sock} && t.sockOf == map[1 := sock]
    ensures t.kicked == [] && t.connections == map[] && t.handlers == map[] && t.heap == map[0 := BLANK]
  {
    hide Leads;
    var s := Init<nat>(1);
    var t1 := Starts();
    Admits(s, t1, sock);
    assert {} + {sock} == {sock};
    var t2 := Drawn(t1.(accept := UnderCap(sock), arrived := {sock}));
    Makes(s, t2);
    t := t2.(accept := Holding(sock, 1, 0), heap := map[0 := BLANK], pool := t2.pool.(created := 1));
  }

  lemma FirstComes(sock: nat) returns (t: Server<nat>)
    ensures Leads(Init<nat>(1), t) && First(t, sock)
  {
    hide Leads;
    var t4 := FirstObject(sock);
    Serves(Init<nat>(1), t4, 0);
    t := Spawned(Awaited(InMap(BoundTo(t4, 0))));
  }

  /** Connection 1 is found idle and its object loaded; then its handler gives the object back. */
  ghost predicate Emptied(t: Server<nat>, sock: nat) {
    && t.accept.Head? && t.running && t.sweep == Loaded(1, 0, []) && t.maxConns == 1 && t.connCounter == 1
    && t.pool.free == [0] && t.arrived == {sock} && t.sockOf == map[1 := sock] && t.kicked == []
    && t.connections == map[] && t.handlers == map[] && 0 in t.heap
  }

  /** The same, with the handler about to call Put. */
  ghost predicate Leaving(t: Server<nat>, sock: nat) {
    && t.accept.Head? && t.running && t.sweep == Loaded(1, 0, []) && t.maxConns == 1 && t.connCounter == 1 && t.wg == 3
    && t.pool.free == [] && t.pool.maxSize == 1 && t.arrived == {sock} && t.sockOf == map[1 := sock] && t.kicked == []
    && t.connections == map[] && t.handlers == map[1 := Handler(0, Deleted)] && 0 in t.heap
  }

  lemma LeavingComes(s: Server<nat>, t: Server<nat>, sock: nat) returns (u: Server<nat>)
    requires Leads(s, t) && First(t, sock)
    ensures Leads(s, u) && Leaving(u, sock)
  {
    hide Leads;
    Finds(s, t, 1, 61);
    Shuts(s, t.(sweep := Loaded(1, 0, [])), 1);
    u := Unlisted(Shut(t.(sweep := Loaded(1, 0, [])), 1), 1);
    assert u.connections == map[] && u.handlers == map[1 := Handler(0, Deleted)];
  }

  lemma EmptiedComes(s: Server<nat>, t: Server<nat>, sock: nat) returns (u: Server<nat>)
    requires Leads(s, t) && Leaving(t, sock)
    ensures Leads(s, u) && Emptied(u, sock)
  {
    hide Leads;
    Puts(s, t, 1);
    var t1 := PutOffered(PutCleared(PutCounted(t, 1), 1), 1);
    Follow(s, t1, Handling(1, Done));
    u := Finished(t1, 1);
    assert u.handlers == map[] && u.pool.free == [0];
  }

  /** The accept loop takes the same object for connection 2. */
  lemma SecondComes(s: Server<nat>, t: Server<nat>, sock: nat, other: nat) returns (u: Server<nat>)
    requires Leads(s, t) && Emptied(t, sock) && other != sock
    ensures Leads(s, u) && u.sweep == Loaded(1, 0, []) && u.kicked == []
    ensures u.sockOf == map[1 := sock, 2 := other] && u.handlers == map[2 := Handler(0, Serving)]
    ensures 0 in u.heap && u.heap[0].id == 2 && u.heap[0].sock == other
  {
    hide Leads;
    Admits(s, t, other);
    var t1 := Drawn(t.(accept := UnderCap(other), arrived := t.arrived + {other}));
    Follow(s, t1, Accepting(TakeIdle));
    var t2 := AcceptNext(t1, TakeIdle);
    Serves(s, t2, 61);
    u := Spawned(Awaited(InMap(BoundTo(t2, 61))));
  }

  /** So the sweeper can close the socket of a connection that was never idle: for any two sockets there is a
      run in which what it closes for connection 1 is the socket of connection 2, whose handler serves. */
  lemma SweepHitsLaterOccupant(sock: nat, other: nat)
    requires sock != other
    ensures exists ls :: var s := Run(Init<nat>(1), ls);
                         && s.kicked == [Kicked(1, other, 2)] && other in s.closedSocks
                         && s.sockOf == map[1 := sock, 2 := other] && s.handlers == map[2 := Handler(0, Serving)]
  {
    var s := Init<nat>(1);
    var t := FirstComes(sock);
    var t' := LeavingComes(s, t, sock);
    var u := EmptiedComes(s, t', sock);
    var v := SecondComes(s, u, sock, other);
    Follow(s, v, Sweeping(KickClose));
    var w := Next(v, Sweeping(KickClose));
    assert [] + [Kicked(1, other, 2)] == [Kicked(1, other, 2)];
    var ls :| Run(s, ls) == w;
  }

  // ---------------------------------------------------------------- no idle connection is forgotten

  /** Id k has been found idle and not been dealt with. */
  predicate Pends<T(==)>(w: SweepPhase<T>, k: nat) {
    match w
    case Off => false
    case Idle => false
    case Scanning(_, expired) => k in expired
    case Looking(_, expired, _, _) => k in expired
    case Kicking(expired) => k in expired
    case Loaded(j, _, expired) => k == j || k in expired
  }

  /** Id k has been listed: it will not be again. */
  predicate PastStore<T(==)>(s: Server<T>, k: nat) {
    1 <= k <= s.connCounter && !(s.accept.HasId() && !s.accept.InMap() && s.accept.id == k)
  }

  predicate KickedSince<T(==)>(s: Server<T>, k: nat, n: nat) {
    exists i :: n <= i < |s.kicked| && s.kicked[i].id == k
  }

  predicate Due<T(==)>(s: Server<T>, k: nat, n: nat) {
    PastStore(s, k) && n <= |s.kicked| && (Pends(s.sweep, k) || KickedSince(s, k, n) || k !in s.connections)
  }

  lemma AcceptDue<T>(s: Server<T>, l: AcceptLabel<T>, k: nat, n: nat)
    requires Due(s, k, n)
    ensures Due(AcceptNext(s, l), k, n)
  {
    AcceptListsOnce(s, l, k);
    hide AcceptNext, PastStore, Pends;
  }

  lemma AcceptListsOnce<T>(s: Server<T>, l: AcceptLabel<T>, k: nat)
    requires PastStore(s, k)
    ensures var t := AcceptNext(s, l);
            PastStore(t, k) && t.sweep == s.sweep && t.kicked == s.kicked && (k in t.connections ==> k in s.connections)
  {
  }

  lemma HandlerListsNone<T>(s: Server<T>, j: nat, l: HandlerLabel)
    ensures var t := HandlerNext(s, j, l);
            && t.accept == s.accept && t.connCounter == s.connCounter && t.sweep == s.sweep && t.kicked == s.kicked
            && t.connections.Keys <= s.connections.Keys
  {
  }

  lemma HandlerDue<T>(s: Server<T>, j: nat, l: HandlerLabel, k: nat, n: nat)
    requires Due(s, k, n)
    ensures Due(HandlerNext(s, j, l), k, n)
  {
    HandlerListsNone(s, j, l);
    hide HandlerNext, Pends;
    assert k in HandlerNext(s, j, l).connections.Keys ==> k in s.connections.Keys;
  }

  lemma ControlListsNone<T>(s: Server<T>, l: ControlLabel)
    ensures var t := ControlNext(s, l);
            && (t.accept == s.accept || t.accept.Head?) && t.connCounter == s.connCounter && t.kicked == s.kicked
            && t.connections == s.connections
            && (s.sweep.Off? ==> t.sweep.Off? || t.sweep.Idle?)
  {
  }

  lemma ControlDue<T>(s: Server<T>, l: ControlLabel, k: nat, n: nat)
    requires WaitCount(s) && Due(s, k, n)
    ensures Due(ControlNext(s, l), k, n)
  {
    ControlListsNone(s, l);
    if !s.sweep.Off? {
      ControlKeepsSweep(s, l);
    }
    hide ControlNext;
  }

  lemma SweepListsNone<T>(s: Server<T>, l: SweepLabel)
    ensures var t := SweepNext(s, l);
            && t.accept == s.accept && t.connCounter == s.connCounter && t.connections == s.connections
            && s.kicked <= t.kicked
  {
  }

  /** The head of the list is loaded, or no longer listed; what is loaded is closed. */
  lemma SweepDeals<T>(s: Server<T>, l: SweepLabel, k: nat)
    requires Tracking(s) && Pends(s.sweep, k)
    ensures var t := SweepNext(s, l);
            || Pends(t.sweep, k) || k !in s.connections
            || (|t.kicked| == |s.kicked| + 1 && t.kicked[|s.kicked|].id == k)
  {
  }

  lemma SweepDue<T>(s: Server<T>, l: SweepLabel, k: nat, n: nat)
    requires Tracking(s) && Due(s, k, n)
    ensures Due(SweepNext(s, l), k, n)
  {
    SweepListsNone(s, l);
    if Pends(s.sweep, k) {
      SweepDeals(s, l, k);
    }
    hide SweepNext, Pends, Tracking;
    if KickedSince(s, k, n) {
      var i :| n <= i < |s.kicked| && s.kicked[i].id == k;
      assert SweepNext(s, l).kicked[i].id == k;
    }
  }

  lemma NextDue<T>(s: Server<T>, l: ServerLabel<T>, k: nat, n: nat)
    requires Inv(s) && Due(s, k, n)
    ensures Due(Next(s, l), k, n)
  {
    hide AcceptNext, HandlerNext, SweepNext, ControlNext, Due;
    match l
    case Accepting(a) => AcceptDue(s, a, k, n);
    case Handling(j, h) => HandlerDue(s, j, h, k, n);
    case Sweeping(w) => SweepDue(s, w, k, n);
    case Controlling(c) => ControlDue(s, c, k, n);
  }

  lemma {:induction false} RunDue<T>(s: Server<T>, ls: seq<ServerLabel<T>>, k: nat, n: nat)
    requires Inv(s) && Due(s, k, n)
    ensures Due(Run(s, ls), k, n)
    decreases |ls|
  {
    hide Inv, Next, Due;
    if ls != [] {
      NextInv(s, ls[0]);
      NextDue(s, ls[0], k, n);
      RunDue(Next(s, ls[0]), ls[1..], k, n);
    }
  }

  /** What the sweeper looks at or has found idle has been listed. */
  ghost predicate FoundListed<T>(s: Server<T>) {
    && (forall k :: Pends(s.sweep, k) ==> PastStore(s, k))
    && (s.sweep.Looking? ==> PastStore(s, s.sweep.k))
  }

  lemma ListedPastStore<T>(s: Server<T>, k: nat)
    requires Listed(s) && Numbering(s) && k in s.connections
    ensures PastStore(s, k)
  {
  }

  lemma SweepFinds<T>(s: Server<T>, l: SweepLabel)
    requires FoundListed(s) && forall k :: k in s.connections ==> PastStore(s, k)
    ensures FoundListed(SweepNext(s, l))
  {
    hide PastStore;
    SweepListsNone(s, l);
    forall k ensures PastStore(s, k) <==> PastStore(SweepNext(s, l), k) {
      SamePastStore(s, SweepNext(s, l), k);
    }
  }

  lemma SamePastStore<T>(s: Server<T>, t: Server<T>, k: nat)
    requires t.connCounter == s.connCounter && (t.accept == s.accept || t.accept.Head?)
    ensures PastStore(s, k) ==> PastStore(t, k)
    ensures t.accept == s.accept ==> (PastStore(s, k) <==> PastStore(t, k))
  {
  }

  lemma OthersFind<T>(s: Server<T>, l: ServerLabel<T>)
    requires FoundListed(s) && !l.Sweeping? && WaitCount(s)
    ensures FoundListed(Next(s, l))
  {
    hide AcceptNext, HandlerNext, ControlNext, Pends, PastStore;
    match l
    case Accepting(a) =>
      forall k | PastStore(s, k) ensures PastStore(AcceptNext(s, a), k) {
        AcceptListsOnce(s, a, k);
      }
      AcceptKeepsSweep(s, a);
    case Handling(j, h) =>
      HandlerListsNone(s, j, h);
      forall k ensures PastStore(s, k) ==> PastStore(HandlerNext(s, j, h), k) {
        SamePastStore(s, HandlerNext(s, j, h), k);
      }
    case Controlling(c) =>
      ControlFinds(s, c);
  }

  lemma ControlFinds<T>(s: Server<T>, c: ControlLabel)
    requires FoundListed(s) && WaitCount(s)
    ensures FoundListed(ControlNext(s, c))
  {
    ControlListsNone(s, c);
    if !s.sweep.Off? {
      ControlKeepsSweep(s, c);
    }
    hide ControlNext, PastStore;
    forall k ensures PastStore(s, k) ==> PastStore(ControlNext(s, c), k) {
      SamePastStore(s, ControlNext(s, c), k);
    }
  }

  lemma NextFinds<T>(s: Server<T>, l: ServerLabel<T>)
    requires Inv(s) && FoundListed(s)
    ensures FoundListed(Next(s, l))
  {
    hide FoundListed, AcceptNext, HandlerNext, SweepNext, ControlNext, PastStore;
    if l.Sweeping? {
      forall k | k in s.connections ensures PastStore(s, k) {
        ListedPastStore(s, k);
      }
      SweepFinds(s, l.w);
    } else {
      OthersFind(s, l);
    }
  }

  lemma {:induction false} RunFinds<T>(s: Server<T>, ls: seq<ServerLabel<T>>)
    requires Inv(s) && FoundListed(s)
    ensures FoundListed(Run(s, ls))
    decreases |ls|
  {
    hide Inv, Next, FoundListed;
    if ls != [] {
      NextInv(s, ls[0]);
      NextFinds(s, ls[0]);
      RunFinds(Next(s, ls[0]), ls[1..]);
    }
  }

  /** An id found idle is dealt with before the sweeper rests again, whatever the others do meanwhile: it has
      closed a socket for that id by then, or the connection has left the map. */
  lemma SweepForgetsNone<T>(maxConns: nat, ls: seq<ServerLabel<T>>, more: seq<ServerLabel<T>>, k: nat)
    requires Pends(Run(Init<T>(maxConns), ls).sweep, k)
    ensures var s := Run(Init<T>(maxConns), ls);
            var t := Run(s, more);
            t.sweep.Idle? || t.sweep.Off? ==>
              k !in t.connections || exists i :: |s.kicked| <= i < |t.kicked| && t.kicked[i].id == k
  {
    var s := Run(Init<T>(maxConns), ls);
    Reachable(maxConns, ls);
    RunFinds(Init<T>(maxConns), ls) by { Reachable<T>(maxConns, []); }
    RunDue(s, more, k, |s.kicked|);
  }
}
