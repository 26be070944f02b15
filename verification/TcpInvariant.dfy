/** The inductive invariant of the TCP server, one predicate per concern, and what follows from it in
    every reachable state. */
module TcpInvariant {
  import opened TcpServer

  predicate Owns<T>(s: Server<T>, k: nat) {
    k in s.handlers && s.handlers[k].phase != Returned
  }

  predicate InUse<T>(h: Handler<T>) {
    h.phase == Serving || h.phase == Closed
  }

  /** The handler has not called Put yet. */
  predicate Keeps<T>(h: Handler<T>) {
    InUse(h) || h.phase == Deleted
  }

  ghost predicate Distinct<T>(xs: seq<T>) {
    forall i, j :: 0 <= i < j < |xs| ==> xs[i] != xs[j]
  }

  /** Idle objects are distinct and exist; the objects of handlers and of the accept loop are none of them
      and no two of them are the same. */
  ghost predicate Ownership<T>(s: Server<T>) {
    && Distinct(s.pool.free)
    && (forall o :: o in s.pool.free ==> o in s.heap)
    && (forall k :: Owns(s, k) ==> s.handlers[k].obj in s.heap && s.handlers[k].obj !in s.pool.free)
    && (forall j, k :: Owns(s, j) && Owns(s, k) && j != k ==> s.handlers[j].obj != s.handlers[k].obj)
    && (s.accept.HasObj() ==>
          && s.accept.obj in s.heap && s.accept.obj !in s.pool.free
          && (forall k :: Owns(s, k) ==> s.handlers[k].obj != s.accept.obj))
  }

  /** Ids are drawn once each; the accept loop holds the latest. */
  ghost predicate Numbering<T>(s: Server<T>) {
    && (forall k :: k in s.handlers ==> 1 <= k <= s.connCounter)
    && (forall k :: k in s.sockOf <==> 1 <= k <= s.connCounter)
    && (forall k :: k in s.loginOf ==> 1 <= k <= s.connCounter)
    && (s.accept.HasId() ==>
          && 1 <= s.accept.id == s.connCounter && s.accept.id !in s.handlers && s.accept.id !in s.loginOf)
    && (s.accept.Unbound() ==> s.sockOf[s.accept.id] == s.accept.sock)
  }

  /** Each id has a socket of its own, and one without an id is nobody's. */
  ghost predicate Sockets<T>(s: Server<T>) {
    && (forall k :: k in s.sockOf ==> s.sockOf[k] in s.arrived)
    && (forall j, k :: j in s.sockOf && k in s.sockOf && j != k ==> s.sockOf[j] != s.sockOf[k])
    && (s.accept.HasSock() ==>
          s.accept.sock in s.arrived && forall k :: k in s.sockOf ==> s.sockOf[k] != s.accept.sock)
  }

  /** An object in use carries the id, the socket and the user of the connection that uses it. */
  ghost predicate Identity<T>(s: Server<T>)
    requires Ownership(s) && Numbering(s)
  {
    && (forall k :: Owns(s, k) ==>
          var r := s.heap[s.handlers[k].obj];
          && r.id == k && r.sock == s.sockOf[k]
          && (s.handlers[k].phase != Cleared ==> r.userId == if k in s.loginOf then s.loginOf[k] else 0))
    && ((s.accept.Bound? || s.accept.InMap()) ==>
          var r := s.heap[s.accept.obj];
          r.id == s.accept.id && r.sock == s.sockOf[s.accept.id] && r.userId == 0)
  }

  /** Whoever holds an object, it carries an id together with that id's socket, or neither; a user only
      while the handler of that id has it and has not cleared it. */
  ghost predicate Carried<T>(s: Server<T>) {
    forall o :: o in s.heap ==> CarriedBy(s, o, s.heap[o])
  }

  ghost predicate CarriedBy<T>(s: Server<T>, o: T, r: Record) {
    && (r.id != 0 ==> r.id in s.sockOf && r.sock == s.sockOf[r.id])
    && (r.userId != 0 ==> Owns(s, r.id) && s.handlers[r.id].obj == o && s.handlers[r.id].phase != Cleared)
  }

  /** The map holds exactly the connections between `Store` and `Delete`, each under its own id. */
  ghost predicate Listed<T>(s: Server<T>) {
    && (forall k :: k in s.connections ==>
          || (k in s.handlers && InUse(s.handlers[k]) && s.handlers[k].obj == s.connections[k])
          || (s.accept.InMap() && s.accept.id == k && s.accept.obj == s.connections[k]))
    && (forall k :: k in s.handlers && InUse(s.handlers[k]) ==> k in s.connections)
    && (s.accept.InMap() ==> s.accept.id in s.connections)
  }

  /** The WaitGroup counts the live loops, the live handlers and a handler about to be spawned. */
  ghost predicate WaitCount<T>(s: Server<T>) {
    && s.wg == (if s.accept.Dead? then 0 else 1) + (if s.sweep.Off? then 0 else 1)
               + |s.handlers| + (if s.accept.Added? then 1 else 0)
    && (!s.running && s.stop.NoStop? ==> s.wg == 0)
  }

  ghost predicate Capacity<T>(s: Server<T>) {
    && |s.connections| <= s.maxConns
    && (s.accept.Counting? ==> s.connections.Keys <= s.accept.start)
    && ((s.accept.UnderCap? || (s.accept.HasId() && !s.accept.InMap())) ==> |s.connections| < s.maxConns)
    && |s.pool.free| <= s.pool.maxSize == s.maxConns
    && s.pool.created <= s.pool.maxSize
  }

  /** Ids given out whose object is neither with the accept loop nor with a handler that keeps it have been
      handed to Put, once each. */
  ghost predicate PutBack<T>(s: Server<T>) {
    && Distinct(s.putLog)
    && (forall k :: k in s.putLog <==>
          && 1 <= k <= s.connCounter
          && !(k in s.handlers && Keeps(s.handlers[k])) && !(s.accept.HasId() && s.accept.id == k))
    && s.pool.put == |s.putLog|
    && s.pool.gotten == s.connCounter
  }

  ghost predicate Numbered<T>(s: Server<T>, x: nat) {
    exists k :: k in s.sockOf && s.sockOf[k] == x
  }

  /** An accepted socket has been closed, or waits for its number, or has one; a numbered one has been closed
      unless its connection is not yet past `Serving`. */
  ghost predicate Closes<T>(s: Server<T>)
    requires Numbering(s)
  {
    && (forall x :: x in s.arrived ==>
          x in s.closedSocks || (s.accept.HasSock() && s.accept.sock == x) || Numbered(s, x))
    && (forall k :: 1 <= k <= s.connCounter ==>
          || s.sockOf[k] in s.closedSocks
          || (s.accept.HasId() && s.accept.id == k)
          || (k in s.handlers && s.handlers[k].phase == Serving))
  }

  /** Objects loaded from the map exist and have been bound; the sweeper closed the sockets of their
      occupants at the time. */
  ghost predicate Tracking<T>(s: Server<T>) {
    && (s.sweep.Looking? ==> s.sweep.obj in s.heap)
    && (s.sweep.Loaded? ==> s.sweep.k in s.sockOf && s.sweep.obj in s.heap && s.heap[s.sweep.obj].id != 0)
    && (s.stop.ClosingOne? ==> s.stop.obj in s.heap)
    && (forall p :: p in s.kicked ==>
          p.id in s.sockOf && p.occupant in s.sockOf && p.sock == s.sockOf[p.occupant])
  }

  /** Who holds what. */
  ghost predicate Held<T>(s: Server<T>) {
    Ownership(s) && Numbering(s) && Sockets(s) && Identity(s) && Carried(s)
  }

  /** The books. */
  ghost predicate Booked<T>(s: Server<T>)
    requires Numbering(s)
  {
    Listed(s) && WaitCount(s) && Capacity(s) && PutBack(s) && Closes(s) && Tracking(s)
  }

  ghost predicate Inv<T>(s: Server<T>) {
    Held(s) && Booked(s)
  }

  // ---------------------------------------------------------------- steps that move no object

  /** The accept loop has the same object in hand, and the same id. */
  predicate SameHold<T(==)>(a: AcceptPhase<T>, b: AcceptPhase<T>) {
    || a == b
    || (!a.HasId() && !b.HasId())
    || (a.Unbound() && b.Unbound() && !a.HasObj() && !b.HasObj() && a.id == b.id && a.sock == b.sock)
  }

  /** `t` differs from `s` only in program counters, in `running`, in the WaitGroup and in what happened to
      sockets. */
  ghost predicate Quiet<T>(s: Server<T>, t: Server<T>) {
    && t.heap == s.heap && t.pool == s.pool && t.handlers == s.handlers && t.connections == s.connections
    && t.maxConns == s.maxConns && t.connCounter == s.connCounter
    && t.sockOf == s.sockOf && t.loginOf == s.loginOf && t.putLog == s.putLog
    && SameHold(s.accept, t.accept)
  }

  lemma QuietHolds<T>(s: Server<T>, t: Server<T>)
    requires Quiet(s, t) && Ownership(s) && Numbering(s)
    ensures Ownership(t) && Numbering(t)
  {
  }

  lemma QuietHeld<T>(s: Server<T>, t: Server<T>)
    requires Quiet(s, t) && Held(s) && Sockets(t)
    ensures Held(t)
  {
    QuietHolds(s, t);
    hide Ownership, Sockets;
  }

  lemma QuietBooked<T>(s: Server<T>, t: Server<T>)
    requires Quiet(s, t) && Listed(s) && PutBack(s)
    ensures Listed(t) && PutBack(t)
  {
  }

  predicate Early<T>(l: AcceptLabel<T>) {
    || l.Enter? || l.Leave? || l.Fail? || l.Arrive? || l.Limit? || l.BeginCount? || l.Visit? || l.EndCount?
    || l.Miss? || l.Refuse?
  }

  lemma EarlyQuiet<T>(s: Server<T>, l: AcceptLabel<T>)
    requires Early(l)
    ensures Quiet(s, AcceptNext(s, l))
  {
    EarlyFrame(s, l);
    EarlyHold(s, l);
    hide AcceptNext, SameHold;
  }

  lemma EarlyFrame<T>(s: Server<T>, l: AcceptLabel<T>)
    requires Early(l)
    ensures var t := AcceptNext(s, l);
            && t.heap == s.heap && t.pool == s.pool && t.handlers == s.handlers && t.connections == s.connections
            && t.maxConns == s.maxConns && t.connCounter == s.connCounter
            && t.sockOf == s.sockOf && t.loginOf == s.loginOf && t.putLog == s.putLog
  {
  }

  lemma EarlyHold<T>(s: Server<T>, l: AcceptLabel<T>)
    requires Early(l)
    ensures SameHold(s.accept, AcceptNext(s, l).accept)
  {
    if l.Miss? || l.Refuse? {
      hide AcceptPhase.HasId;
    }
  }

  lemma EarlySockets<T>(s: Server<T>, l: AcceptLabel<T>)
    requires Early(l) && Sockets(s)
    ensures Sockets(AcceptNext(s, l))
  {
  }

  lemma EarlyTracking<T>(s: Server<T>, l: AcceptLabel<T>)
    requires Early(l) && Tracking(s)
    ensures Tracking(AcceptNext(s, l))
  {
  }

  lemma EarlyCloses<T>(s: Server<T>, l: AcceptLabel<T>)
    requires Early(l) && Numbering(s) && Numbering(AcceptNext(s, l)) && Closes(s)
    ensures Closes(AcceptNext(s, l))
  {
    forall x | Numbered(s, x) ensures Numbered(AcceptNext(s, l), x) {
      NumberedStays(s, AcceptNext(s, l), x);
    }
  }

  lemma NumberedStays<T>(s: Server<T>, t: Server<T>, x: nat)
    requires Numbered(s, x) && forall k :: k in s.sockOf ==> k in t.sockOf && t.sockOf[k] == s.sockOf[k]
    ensures Numbered(t, x)
  {
    var k :| k in s.sockOf && s.sockOf[k] == x;
    assert k in t.sockOf;
  }

  lemma EarlyWaitCount<T>(s: Server<T>, l: AcceptLabel<T>)
    requires Early(l) && WaitCount(s)
    ensures WaitCount(AcceptNext(s, l))
  {
  }

  /** The count may be taken while handlers delete, but it covers every key still in the map. */
  lemma EarlyCapacity<T>(s: Server<T>, l: AcceptLabel<T>)
    requires Early(l) && Capacity(s)
    ensures Capacity(AcceptNext(s, l))
  {
    if AcceptEnabled(s, l) && l.EndCount? {
      CardinalityMonotonic(s.connections.Keys, s.accept.visited);
    }
  }

  lemma CardinalityMonotonic<A>(a: set<A>, b: set<A>)
    requires a <= b
    ensures |a| <= |b|
  {
    assert |b| == |a| + |b - a| by { assert b == a + (b - a); }
  }

  lemma EarlyInv<T>(s: Server<T>, l: AcceptLabel<T>)
    requires Inv(s) && Early(l)
    ensures Inv(AcceptNext(s, l))
  {
    hide AcceptNext, Ownership, Numbering, Sockets, Identity, Carried, Listed, PutBack, WaitCount, Capacity, Closes,
         Tracking;
    EarlyQuiet(s, l);
    EarlySockets(s, l);
    QuietHeld(s, AcceptNext(s, l));
    QuietBooked(s, AcceptNext(s, l));
    EarlyTracking(s, l);
    EarlyCloses(s, l);
    EarlyWaitCount(s, l);
    EarlyCapacity(s, l);
  }

  // ---------------------------------------------------------------- the sweeper and Stop

  /** `t` differs from `s` only in the sweeper's and Stop's places and in what they closed. */
  ghost predicate Outside<T>(s: Server<T>, t: Server<T>) {
    && Quiet(s, t) && t.accept == s.accept && t.arrived == s.arrived && s.closedSocks <= t.closedSocks
  }

  lemma OutsideInv<T>(s: Server<T>, t: Server<T>)
    requires Inv(s) && Outside(s, t) && WaitCount(t) && Tracking(t)
    ensures Inv(t)
  {
    QuietHeld(s, t);
    QuietBooked(s, t);
    forall x | Numbered(s, x) ensures Numbered(t, x) {
      NumberedStays(s, t, x);
    }
  }

  lemma SweepOutside<T>(s: Server<T>, l: SweepLabel)
    ensures Outside(s, SweepNext(s, l))
  {
    hide AcceptPhase.HasId, AcceptPhase.HasObj, AcceptPhase.Unbound;
  }

  lemma SweepWaitCount<T>(s: Server<T>, l: SweepLabel)
    requires WaitCount(s)
    ensures WaitCount(SweepNext(s, l))
  {
  }

  /** What the map yields is an object with the id it is listed under. */
  lemma ListedObject<T>(s: Server<T>, k: nat)
    requires Held(s) && Listed(s) && k in s.connections
    ensures s.connections[k] in s.heap && k in s.sockOf
    ensures var r := s.heap[s.connections[k]];
            && r.id == k != 0 && r.sock == s.sockOf[k]
            && r.userId == if k in s.loginOf then s.loginOf[k] else 0
  {
    if k in s.handlers && InUse(s.handlers[k]) {
      assert Owns(s, k);
    }
  }

  lemma SweepTracking<T>(s: Server<T>, l: SweepLabel)
    requires Held(s) && Listed(s) && Tracking(s)
    ensures Tracking(SweepNext(s, l))
  {
    if SweepEnabled(s, l) {
      match l
      case Look(k) => ListedObject(s, k);
      case KickLoad => if s.sweep.expired[0] in s.connections { ListedObject(s, s.sweep.expired[0]); }
      case KickClose => assert CarriedBy(s, s.sweep.obj, s.heap[s.sweep.obj]);
      case _ =>
    }
  }

  lemma SweepInv<T>(s: Server<T>, l: SweepLabel)
    requires Inv(s)
    ensures Inv(SweepNext(s, l))
  {
    hide SweepNext;
    SweepOutside(s, l);
    SweepWaitCount(s, l);
    SweepTracking(s, l);
    OutsideInv(s, SweepNext(s, l));
  }

  lemma ControlQuiet<T>(s: Server<T>, l: ControlLabel)
    requires WaitCount(s)
    ensures var t := ControlNext(s, l);
            && Quiet(s, t) && t.arrived == s.arrived && s.closedSocks <= t.closedSocks
            && t.accept.HasSock() == s.accept.HasSock() && (s.accept.HasSock() ==> t.accept.sock == s.accept.sock)
  {
  }

  lemma ControlCounts<T>(s: Server<T>, l: ControlLabel)
    requires WaitCount(s) && Capacity(s)
    ensures WaitCount(ControlNext(s, l)) && Capacity(ControlNext(s, l))
  {
  }

  lemma ControlTracking<T>(s: Server<T>, l: ControlLabel)
    requires Held(s) && Listed(s) && Tracking(s)
    ensures Tracking(ControlNext(s, l))
  {
    if ControlEnabled(s, l) && l.StopLoad? {
      ListedObject(s, l.k);
    }
  }

  lemma ControlCloses<T>(s: Server<T>, t: Server<T>)
    requires Numbering(s) && Closes(s) && Quiet(s, t) && Numbering(t)
    requires t.arrived == s.arrived && s.closedSocks <= t.closedSocks
    requires t.accept.HasSock() == s.accept.HasSock() && (s.accept.HasSock() ==> t.accept.sock == s.accept.sock)
    ensures Closes(t)
  {
    forall x | Numbered(s, x) ensures Numbered(t, x) {
      NumberedStays(s, t, x);
    }
  }

  lemma ControlInv<T>(s: Server<T>, l: ControlLabel)
    requires Inv(s)
    ensures Inv(ControlNext(s, l))
  {
    hide ControlNext, Quiet, Ownership, Numbering, Identity, Carried, Listed, PutBack, WaitCount, Capacity, Closes,
         Tracking;
    ControlQuiet(s, l);
    QuietHeld(s, ControlNext(s, l));
    QuietBooked(s, ControlNext(s, l));
    ControlCounts(s, l);
    ControlTracking(s, l);
    ControlCloses(s, ControlNext(s, l));
  }

  // ---------------------------------------------------------------- the accept loop draws an id

  lemma DrawnHolds<T>(s: Server<T>)
    requires Ownership(s) && Numbering(s) && Sockets(s) && s.accept.UnderCap?
    ensures var t := Drawn(s); Ownership(t) && Numbering(t) && Sockets(t)
  {
  }

  lemma DrawnCarried<T>(s: Server<T>)
    requires Held(s) && s.accept.UnderCap? && Ownership(Drawn(s)) && Numbering(Drawn(s))
    ensures Identity(Drawn(s)) && Carried(Drawn(s))
  {
  }

  lemma DrawnHeld<T>(s: Server<T>)
    requires Held(s) && s.accept.UnderCap?
    ensures Held(Drawn(s))
  {
    hide Drawn, Ownership, Numbering, Sockets, Identity, Carried;
    DrawnHolds(s);
    DrawnCarried(s);
  }

  lemma DrawnBooked<T>(s: Server<T>)
    requires Numbering(s) && Listed(s) && WaitCount(s) && Capacity(s) && PutBack(s) && s.accept.UnderCap?
    ensures var t := Drawn(s); Listed(t) && WaitCount(t) && Capacity(t) && PutBack(t)
  {
  }

  lemma DrawnCloses<T>(s: Server<T>)
    requires Numbering(s) && Closes(s) && Tracking(s) && s.accept.UnderCap? && Numbering(Drawn(s))
    ensures Closes(Drawn(s)) && Tracking(Drawn(s))
  {
    var t := Drawn(s);
    forall x | Numbered(s, x) ensures Numbered(t, x) {
      NumberedStays(s, t, x);
    }
    assert t.connCounter in t.sockOf;
    assert Numbered(t, s.accept.sock);
  }

  lemma DrawnInv<T>(s: Server<T>)
    requires Inv(s) && s.accept.UnderCap?
    ensures Inv(Drawn(s))
  {
    hide Drawn, Ownership, Numbering, Sockets, Identity, Carried, Listed, PutBack, WaitCount, Capacity, Closes,
         Tracking;
    DrawnHeld(s);
    DrawnBooked(s);
    DrawnCloses(s);
  }

  // ---------------------------------------------------------------- ... gets an object

  predicate Gets<T>(l: AcceptLabel<T>) {
    l.TakeIdle? || l.Create? || l.Expire?
  }

  /** An object comes into the accept loop's hands: the first idle one or a blank one. */
  ghost predicate Taken<T>(s: Server<T>, t: Server<T>) {
    && (s.accept.Getting? || s.accept.Missing? || s.accept.Queueing?)
    && t.accept.Holding? && t.accept.id == s.accept.id && t.accept.sock == s.accept.sock
    && (|| (t.accept.obj !in s.heap && t.heap == s.heap[t.accept.obj := BLANK] && t.pool.free == s.pool.free)
        || (s.pool.free != [] && t.accept.obj == s.pool.free[0] && t.pool.free == s.pool.free[1..] && t.heap == s.heap))
    && t.handlers == s.handlers && t.connections == s.connections && t.connCounter == s.connCounter
    && t.sockOf == s.sockOf && t.loginOf == s.loginOf && t.putLog == s.putLog
    && t.arrived == s.arrived && t.closedSocks == s.closedSocks && t.kicked == s.kicked
    && t.sweep == s.sweep && t.stop == s.stop
    && t.wg == s.wg && t.running == s.running && t.maxConns == s.maxConns && t.pool.maxSize == s.pool.maxSize
    && t.pool.put == s.pool.put && t.pool.gotten == s.pool.gotten
    && (t.pool.created == s.pool.created || t.pool.created == s.pool.created + 1 <= s.pool.maxSize)
  }

  lemma GetsTaken<T>(s: Server<T>, l: AcceptLabel<T>)
    requires Gets(l) && AcceptEnabled(s, l)
    ensures Taken(s, AcceptNext(s, l))
  {
  }

  lemma TakenHolds<T>(s: Server<T>, t: Server<T>)
    requires Ownership(s) && Numbering(s) && Taken(s, t)
    ensures Ownership(t) && Numbering(t)
  {
  }

  lemma TakenHeld<T>(s: Server<T>, t: Server<T>)
    requires Held(s) && Taken(s, t)
    ensures Held(t)
  {
    TakenHolds(s, t);
  }

  lemma TakenBooked<T>(s: Server<T>, t: Server<T>)
    requires Numbering(s) && Numbering(t) && Booked(s) && Taken(s, t)
    ensures Booked(t)
  {
    forall x | Numbered(s, x) ensures Numbered(t, x) {
      NumberedStays(s, t, x);
    }
  }

  lemma GetsInv<T>(s: Server<T>, l: AcceptLabel<T>)
    requires Inv(s) && Gets(l)
    ensures Inv(AcceptNext(s, l))
  {
    if AcceptEnabled(s, l) {
      GetsTaken(s, l);
      hide AcceptNext;
      TakenHeld(s, AcceptNext(s, l));
      TakenBooked(s, AcceptNext(s, l));
    }
  }

  // ---------------------------------------------------------------- ... binds, lists and spawns

  lemma BoundHeld<T>(s: Server<T>, now: int)
    requires Held(s) && s.accept.Holding?
    ensures Held(BoundTo(s, now))
  {
  }

  lemma BoundBooked<T>(s: Server<T>, now: int)
    requires Numbering(s) && Booked(s) && s.accept.Holding? && Numbering(BoundTo(s, now))
    ensures Booked(BoundTo(s, now))
  {
    forall x | Numbered(s, x) ensures Numbered(BoundTo(s, now), x) {
      NumberedStays(s, BoundTo(s, now), x);
    }
  }

  lemma BoundInv<T>(s: Server<T>, now: int)
    requires Inv(s) && s.accept.Holding?
    ensures Inv(BoundTo(s, now))
  {
    hide BoundTo, Ownership, Numbering, Sockets, Identity, Carried, Listed, PutBack, WaitCount, Capacity, Closes,
         Tracking;
    BoundHeld(s, now);
    BoundBooked(s, now);
  }

  lemma InMapBooked<T>(s: Server<T>)
    requires Numbering(s) && Booked(s) && s.accept.Bound? && Numbering(InMap(s))
    ensures Booked(InMap(s))
  {
    forall x | Numbered(s, x) ensures Numbered(InMap(s), x) {
      NumberedStays(s, InMap(s), x);
    }
  }

  lemma InMapInv<T>(s: Server<T>)
    requires Inv(s) && s.accept.Bound?
    ensures Inv(InMap(s))
  {
    hide Ownership, Numbering, Sockets, Identity, Carried, Listed, PutBack, WaitCount, Capacity, Closes, Tracking;
    GoesOnHeld(s, InMap(s));
    InMapBooked(s);
  }

  lemma AwaitedInv<T>(s: Server<T>)
    requires Inv(s) && s.accept.Stored?
    ensures Inv(Awaited(s))
  {
    hide Ownership, Numbering, Sockets, Identity, Carried, Listed, PutBack, WaitCount, Capacity, Closes, Tracking;
    GoesOnHeld(s, Awaited(s));
    AwaitedBooked(s);
  }

  /** The accept loop goes on with the object it has bound. */
  ghost predicate GoesOn<T>(s: Server<T>, t: Server<T>) {
    && (s.accept.Bound? || s.accept.Stored?) && (t.accept.Stored? || t.accept.Added?)
    && t.accept.id == s.accept.id && t.accept.obj == s.accept.obj
    && t.heap == s.heap && t.pool == s.pool && t.handlers == s.handlers && t.connCounter == s.connCounter
    && t.sockOf == s.sockOf && t.loginOf == s.loginOf && t.arrived == s.arrived
  }

  lemma GoesOnHeld<T>(s: Server<T>, t: Server<T>)
    requires Held(s) && GoesOn(s, t)
    ensures Held(t)
  {
  }

  lemma AwaitedBooked<T>(s: Server<T>)
    requires Numbering(s) && Booked(s) && s.accept.Stored? && Numbering(Awaited(s))
    ensures Booked(Awaited(s))
  {
    forall x | Numbered(s, x) ensures Numbered(Awaited(s), x) {
      NumberedStays(s, Awaited(s), x);
    }
  }

  lemma SpawnedHolds<T>(s: Server<T>)
    requires Ownership(s) && Numbering(s) && Sockets(s) && s.accept.Added?
    ensures var t := Spawned(s); Ownership(t) && Numbering(t) && Sockets(t)
  {
  }

  lemma SpawnedCarried<T>(s: Server<T>)
    requires Held(s) && s.accept.Added? && Ownership(Spawned(s)) && Numbering(Spawned(s))
    ensures Identity(Spawned(s)) && Carried(Spawned(s))
  {
  }

  lemma SpawnedHeld<T>(s: Server<T>)
    requires Held(s) && s.accept.Added?
    ensures Held(Spawned(s))
  {
    hide Spawned, Ownership, Numbering, Sockets, Identity, Carried;
    SpawnedHolds(s);
    SpawnedCarried(s);
  }

  lemma SpawnedBooked<T>(s: Server<T>)
    requires Numbering(s) && Listed(s) && WaitCount(s) && Capacity(s) && PutBack(s) && s.accept.Added?
    ensures var t := Spawned(s); Listed(t) && WaitCount(t) && Capacity(t) && PutBack(t)
  {
  }

  lemma SpawnedCloses<T>(s: Server<T>)
    requires Numbering(s) && Closes(s) && Tracking(s) && s.accept.Added? && Numbering(Spawned(s))
    ensures Closes(Spawned(s)) && Tracking(Spawned(s))
  {
    forall x | Numbered(s, x) ensures Numbered(Spawned(s), x) {
      NumberedStays(s, Spawned(s), x);
    }
  }

  lemma SpawnedInv<T>(s: Server<T>)
    requires Inv(s) && s.accept.Added?
    ensures Inv(Spawned(s))
  {
    hide Spawned, Ownership, Numbering, Sockets, Identity, Carried, Listed, PutBack, WaitCount, Capacity, Closes,
         Tracking;
    SpawnedHeld(s);
    SpawnedBooked(s);
    SpawnedCloses(s);
  }

  // ---------------------------------------------------------------- handlers

  /** The handler of k may be in another phase, with the same object; another is not. */
  ghost predicate OnlyOne<T>(s: Server<T>, t: Server<T>, k: nat) {
    && k in s.handlers && k in t.handlers && t.handlers == s.handlers[k := t.handlers[k]]
    && t.handlers[k].obj == s.handlers[k].obj
    && t.accept == s.accept && t.connCounter == s.connCounter && t.maxConns == s.maxConns
  }

  lemma ListedKept<T>(s: Server<T>, t: Server<T>, k: nat)
    requires Listed(s) && OnlyOne(s, t, k) && t.connections == s.connections
    requires InUse(t.handlers[k]) == InUse(s.handlers[k])
    ensures Listed(t)
  {
  }

  lemma PutBackKept<T>(s: Server<T>, t: Server<T>, k: nat)
    requires PutBack(s) && OnlyOne(s, t, k) && t.putLog == s.putLog
    requires t.pool.put == s.pool.put && t.pool.gotten == s.pool.gotten
    requires Keeps(t.handlers[k]) == Keeps(s.handlers[k])
    ensures PutBack(t)
  {
  }

  lemma CountsKept<T>(s: Server<T>, t: Server<T>, k: nat)
    requires WaitCount(s) && Capacity(s) && OnlyOne(s, t, k)
    requires t.connections.Keys <= s.connections.Keys
    requires t.wg == s.wg && t.sweep == s.sweep && t.running == s.running && t.stop == s.stop
    requires t.pool.free == s.pool.free || |t.pool.free| <= s.pool.maxSize
    requires t.pool.maxSize == s.pool.maxSize && t.pool.created == s.pool.created
    ensures WaitCount(t) && Capacity(t)
  {
    CardinalityMonotonic(t.connections.Keys, s.connections.Keys);
    assert t.handlers.Keys == s.handlers.Keys;
  }

  /** What concerns the sockets and the sweeper stays, as long as the handler of k does not leave `Serving`
      with its socket open. */
  ghost predicate Settled<T>(s: Server<T>, t: Server<T>, k: nat) {
    && t.arrived == s.arrived && t.sockOf == s.sockOf && s.closedSocks <= t.closedSocks
    && (forall j :: j in s.handlers && j != k ==> j in t.handlers && t.handlers[j] == s.handlers[j])
    && (k in s.handlers && s.handlers[k].phase == Serving ==>
          (k in t.handlers && t.handlers[k].phase == Serving) || (k in s.sockOf && s.sockOf[k] in t.closedSocks))
    && t.accept == s.accept && t.connCounter == s.connCounter
    && t.sweep == s.sweep && t.stop == s.stop && t.kicked == s.kicked
    && t.heap.Keys == s.heap.Keys && (forall o :: o in s.heap ==> t.heap[o].id == s.heap[o].id)
  }

  lemma SettledTracking<T>(s: Server<T>, t: Server<T>, k: nat)
    requires Tracking(s) && Settled(s, t, k)
    ensures Tracking(t)
  {
  }

  lemma SettledCloses<T>(s: Server<T>, t: Server<T>, k: nat)
    requires Numbering(s) && Closes(s) && Settled(s, t, k) && Numbering(t)
    ensures Closes(t)
  {
    forall x | Numbered(s, x) ensures Numbered(t, x) {
      NumberedStays(s, t, x);
    }
  }

  lemma HandlerBooked<T>(s: Server<T>, t: Server<T>, k: nat)
    requires Numbering(s) && Numbering(t) && Booked(s) && Settled(s, t, k)
    requires Listed(t) && PutBack(t) && WaitCount(t) && Capacity(t)
    ensures Booked(t)
  {
    hide Numbering, Listed, PutBack, WaitCount, Capacity, Closes, Tracking, Settled;
    SettledTracking(s, t, k);
    SettledCloses(s, t, k);
  }

  lemma OwnRecord<T>(s: Server<T>, k: nat)
    requires Held(s) && Owns(s, k)
    ensures s.handlers[k].obj in s.heap && k in s.sockOf
    ensures s.heap[s.handlers[k].obj].id == k && s.heap[s.handlers[k].obj].sock == s.sockOf[k]
  {
  }

  /** The handler of k keeps its object, uncleared, in another phase of its clean-up. */
  ghost predicate Rephased<T>(s: Server<T>, t: Server<T>, k: nat) {
    && OnlyOne(s, t, k) && t.heap == s.heap && t.pool.free == s.pool.free
    && t.sockOf == s.sockOf && t.loginOf == s.loginOf && t.arrived == s.arrived
    && Owns(s, k) && Owns(t, k) && s.handlers[k].phase != Cleared && t.handlers[k].phase != Cleared
  }

  lemma RephasedHolds<T>(s: Server<T>, t: Server<T>, k: nat)
    requires Ownership(s) && Numbering(s) && Sockets(s) && Rephased(s, t, k)
    ensures Ownership(t) && Numbering(t) && Sockets(t)
  {
    assert forall j :: Owns(t, j) <==> Owns(s, j);
  }

  lemma RephasedHeld<T>(s: Server<T>, t: Server<T>, k: nat)
    requires Held(s) && Rephased(s, t, k)
    ensures Held(t)
  {
    assert forall j :: Owns(t, j) <==> Owns(s, j);
    RephasedHolds(s, t, k);
  }

  lemma StampedHeld<T>(s: Server<T>, k: nat, now: int)
    requires Held(s) && Live(s, k) && s.handlers[k].phase == Serving
    ensures Held(Stamped(s, k, now))
  {
  }

  lemma StampedInv<T>(s: Server<T>, k: nat, now: int)
    requires Inv(s) && Live(s, k) && s.handlers[k].phase == Serving
    ensures Inv(Stamped(s, k, now))
  {
    hide Ownership, Numbering, Sockets, Identity, Carried, Listed, PutBack, WaitCount, Capacity, Closes, Tracking;
    var t := Stamped(s, k, now);
    StampedHeld(s, k, now);
    ListedKept(s, t, k);
    PutBackKept(s, t, k);
    CountsKept(s, t, k);
    HandlerBooked(s, t, k);
  }

  lemma LoggedInHolds<T>(s: Server<T>, k: nat, user: nat)
    requires Ownership(s) && Numbering(s) && Sockets(s) && Live(s, k) && s.handlers[k].phase == Serving
    ensures var t := LoggedIn(s, k, user); Ownership(t) && Numbering(t) && Sockets(t)
  {
  }

  lemma LoggedInCarried<T>(s: Server<T>, k: nat, user: nat)
    requires Held(s) && Live(s, k) && s.handlers[k].phase == Serving && Ownership(LoggedIn(s, k, user))
             && Numbering(LoggedIn(s, k, user))
    ensures Identity(LoggedIn(s, k, user)) && Carried(LoggedIn(s, k, user))
  {
  }

  lemma LoggedInHeld<T>(s: Server<T>, k: nat, user: nat)
    requires Held(s) && Live(s, k) && s.handlers[k].phase == Serving
    ensures Held(LoggedIn(s, k, user))
  {
    hide LoggedIn, Ownership, Numbering, Sockets, Identity, Carried;
    LoggedInHolds(s, k, user);
    LoggedInCarried(s, k, user);
  }

  lemma LoggedInInv<T>(s: Server<T>, k: nat, user: nat)
    requires Inv(s) && Live(s, k) && s.handlers[k].phase == Serving
    ensures Inv(LoggedIn(s, k, user))
  {
    hide Ownership, Numbering, Sockets, Identity, Carried, Listed, PutBack, WaitCount, Capacity, Closes, Tracking;
    var t := LoggedIn(s, k, user);
    LoggedInHeld(s, k, user);
    ListedKept(s, t, k);
    PutBackKept(s, t, k);
    CountsKept(s, t, k);
    HandlerBooked(s, t, k);
  }

  lemma HungHeld<T>(s: Server<T>, k: nat)
    requires Held(s) && Live(s, k) && s.handlers[k].phase == Serving
    ensures Held(Hung(s, k))
  {
  }

  lemma HungInv<T>(s: Server<T>, k: nat)
    requires Inv(s) && Live(s, k) && s.handlers[k].phase == Serving
    ensures Inv(Hung(s, k))
  {
    hide Ownership, Numbering, Sockets, Identity, Carried, Listed, PutBack, WaitCount, Capacity, Closes, Tracking;
    var t := Hung(s, k);
    HungHeld(s, k);
    ListedKept(s, t, k);
    PutBackKept(s, t, k);
    CountsKept(s, t, k);
    HandlerBooked(s, t, k);
  }

  lemma ShutInv<T>(s: Server<T>, k: nat)
    requires Inv(s) && Live(s, k) && s.handlers[k].phase == Serving
    ensures Inv(Shut(s, k))
  {
    hide Ownership, Numbering, Sockets, Identity, Carried, Listed, PutBack, WaitCount, Capacity, Closes, Tracking;
    var t := Shut(s, k);
    RephasedHeld(s, t, k);
    OwnRecord(s, k);
    ListedKept(s, t, k);
    PutBackKept(s, t, k);
    CountsKept(s, t, k);
    HandlerBooked(s, t, k);
  }

  /** The key a handler deletes is its own, because its object still carries its id. */
  lemma UnlistedListed<T>(s: Server<T>, k: nat)
    requires Ownership(s) && Numbering(s) && Identity(s) && Listed(s) && Live(s, k) && s.handlers[k].phase == Closed
    ensures Listed(Unlisted(s, k))
  {
    assert Owns(s, k);
    assert Unlisted(s, k).connections == s.connections - {k};
  }

  lemma UnlistedInv<T>(s: Server<T>, k: nat)
    requires Inv(s) && Live(s, k) && s.handlers[k].phase == Closed
    ensures Inv(Unlisted(s, k))
  {
    hide Ownership, Numbering, Sockets, Identity, Carried, Listed, PutBack, WaitCount, Capacity, Closes, Tracking;
    var t := Unlisted(s, k);
    RephasedHeld(s, t, k);
    UnlistedListed(s, k);
    OwnRecord(s, k);
    PutBackKept(s, t, k);
    CountsKept(s, t, k);
    HandlerBooked(s, t, k);
  }

  lemma PutCountedPutBack<T>(s: Server<T>, k: nat)
    requires Numbering(s) && PutBack(s) && Live(s, k) && s.handlers[k].phase == Deleted
    ensures PutBack(PutCounted(s, k))
  {
  }

  lemma PutCountedInv<T>(s: Server<T>, k: nat)
    requires Inv(s) && Live(s, k) && s.handlers[k].phase == Deleted
    ensures Inv(PutCounted(s, k))
  {
    hide Ownership, Numbering, Sockets, Identity, Carried, Listed, PutBack, WaitCount, Capacity, Closes, Tracking;
    var t := PutCounted(s, k);
    RephasedHeld(s, t, k);
    PutCountedPutBack(s, k);
    ListedKept(s, t, k);
    CountsKept(s, t, k);
    HandlerBooked(s, t, k);
  }

  lemma PutClearedHolds<T>(s: Server<T>, k: nat)
    requires Ownership(s) && Numbering(s) && Sockets(s) && Live(s, k) && s.handlers[k].phase == Counted
    ensures var t := PutCleared(s, k); Ownership(t) && Numbering(t) && Sockets(t)
  {
  }

  lemma PutClearedCarried<T>(s: Server<T>, k: nat)
    requires Held(s) && Live(s, k) && s.handlers[k].phase == Counted && Ownership(PutCleared(s, k))
             && Numbering(PutCleared(s, k))
    ensures Identity(PutCleared(s, k)) && Carried(PutCleared(s, k))
  {
  }

  lemma PutClearedHeld<T>(s: Server<T>, k: nat)
    requires Held(s) && Live(s, k) && s.handlers[k].phase == Counted
    ensures Held(PutCleared(s, k))
  {
    hide PutCleared, Ownership, Numbering, Sockets, Identity, Carried;
    PutClearedHolds(s, k);
    PutClearedCarried(s, k);
  }

  lemma PutClearedInv<T>(s: Server<T>, k: nat)
    requires Inv(s) && Live(s, k) && s.handlers[k].phase == Counted
    ensures Inv(PutCleared(s, k))
  {
    hide Ownership, Numbering, Sockets, Identity, Carried, Listed, PutBack, WaitCount, Capacity, Closes, Tracking;
    var t := PutCleared(s, k);
    PutClearedHeld(s, k);
    ListedKept(s, t, k);
    PutBackKept(s, t, k);
    CountsKept(s, t, k);
    HandlerBooked(s, t, k);
  }

  lemma PutOfferedHolds<T>(s: Server<T>, k: nat)
    requires Ownership(s) && Numbering(s) && Sockets(s) && Live(s, k) && s.handlers[k].phase == Cleared
    ensures var t := PutOffered(s, k); Ownership(t) && Numbering(t) && Sockets(t)
  {
  }

  lemma PutOfferedCarried<T>(s: Server<T>, k: nat)
    requires Held(s) && Live(s, k) && s.handlers[k].phase == Cleared && Ownership(PutOffered(s, k))
             && Numbering(PutOffered(s, k))
    ensures Identity(PutOffered(s, k)) && Carried(PutOffered(s, k))
  {
  }

  lemma PutOfferedHeld<T>(s: Server<T>, k: nat)
    requires Held(s) && Live(s, k) && s.handlers[k].phase == Cleared
    ensures Held(PutOffered(s, k))
  {
    hide PutOffered, Ownership, Numbering, Sockets, Identity, Carried;
    PutOfferedHolds(s, k);
    PutOfferedCarried(s, k);
  }

  lemma PutOfferedInv<T>(s: Server<T>, k: nat)
    requires Inv(s) && Live(s, k) && s.handlers[k].phase == Cleared
    ensures Inv(PutOffered(s, k))
  {
    hide Ownership, Numbering, Sockets, Identity, Carried, Listed, PutBack, WaitCount, Capacity, Closes, Tracking;
    var t := PutOffered(s, k);
    PutOfferedHeld(s, k);
    ListedKept(s, t, k);
    PutBackKept(s, t, k);
    CountsKept(s, t, k);
    HandlerBooked(s, t, k);
  }

  lemma FinishedHolds<T>(s: Server<T>, k: nat)
    requires Ownership(s) && Numbering(s) && Sockets(s) && k in s.handlers && s.handlers[k].phase == Returned
             && s.wg > 0
    ensures var t := Finished(s, k); Ownership(t) && Numbering(t) && Sockets(t)
  {
  }

  lemma FinishedCarried<T>(s: Server<T>, k: nat)
    requires Held(s) && k in s.handlers && s.handlers[k].phase == Returned && s.wg > 0
             && Ownership(Finished(s, k)) && Numbering(Finished(s, k))
    ensures Identity(Finished(s, k)) && Carried(Finished(s, k))
  {
  }

  lemma FinishedHeld<T>(s: Server<T>, k: nat)
    requires Held(s) && k in s.handlers && s.handlers[k].phase == Returned && s.wg > 0
    ensures Held(Finished(s, k))
  {
    hide Finished, Ownership, Numbering, Sockets, Identity, Carried;
    FinishedHolds(s, k);
    FinishedCarried(s, k);
  }

  lemma FinishedListed<T>(s: Server<T>, k: nat)
    requires Listed(s) && PutBack(s) && k in s.handlers && s.handlers[k].phase == Returned && s.wg > 0
    ensures Listed(Finished(s, k)) && PutBack(Finished(s, k))
  {
  }

  lemma FinishedCounts<T>(s: Server<T>, k: nat)
    requires WaitCount(s) && Capacity(s) && k in s.handlers && s.handlers[k].phase == Returned && s.wg > 0
    ensures WaitCount(Finished(s, k)) && Capacity(Finished(s, k))
  {
    assert (s.handlers - {k}).Keys == s.handlers.Keys - {k};
  }

  lemma FinishedInv<T>(s: Server<T>, k: nat)
    requires Inv(s) && k in s.handlers && s.handlers[k].phase == Returned && s.wg > 0
    ensures Inv(Finished(s, k))
  {
    hide Ownership, Numbering, Sockets, Identity, Carried, Listed, PutBack, WaitCount, Capacity, Closes, Tracking;
    FinishedHeld(s, k);
    FinishedListed(s, k);
    FinishedCounts(s, k);
    HandlerBooked(s, Finished(s, k), k);
  }

  lemma HandlerInv<T>(s: Server<T>, k: nat, l: HandlerLabel)
    requires Inv(s)
    ensures Inv(HandlerNext(s, k, l))
  {
    hide Inv, Stamped, LoggedIn, Hung, Shut, Unlisted, PutCounted, PutCleared, PutOffered, Finished;
    if HandlerEnabled(s, k, l) {
      match l
      case Activity(now) => StampedInv(s, k, now);
      case Login(user) => LoggedInInv(s, k, user);
      case Logout => HungInv(s, k);
      case Close => ShutInv(s, k);
      case Delete => UnlistedInv(s, k);
      case PutCount => PutCountedInv(s, k);
      case PutReset => PutClearedInv(s, k);
      case PutOffer => PutOfferedInv(s, k);
      case Done => FinishedInv(s, k);
    }
  }

  // ---------------------------------------------------------------- every run

  lemma AcceptInv<T>(s: Server<T>, l: AcceptLabel<T>)
    requires Inv(s)
    ensures Inv(AcceptNext(s, l))
  {
    hide Inv, Drawn, BoundTo, InMap, Awaited, Spawned;
    if !AcceptEnabled(s, l) {
    } else if Early(l) {
      EarlyInv(s, l);
    } else if Gets(l) {
      GetsInv(s, l);
    } else {
      match l
      case Number => DrawnInv(s);
      case Bind(now) => BoundInv(s, now);
      case Store => InMapInv(s);
      case Add => AwaitedInv(s);
      case Spawn => SpawnedInv(s);
    }
  }

  lemma NextInv<T>(s: Server<T>, l: ServerLabel<T>)
    requires Inv(s)
    ensures Inv(Next(s, l))
  {
    hide Inv;
    match l
    case Accepting(a) => AcceptInv(s, a);
    case Handling(k, h) => HandlerInv(s, k, h);
    case Sweeping(w) => SweepInv(s, w);
    case Controlling(c) => ControlInv(s, c);
  }

  lemma {:induction false} RunInv<T>(s: Server<T>, ls: seq<ServerLabel<T>>)
    requires Inv(s)
    ensures Inv(Run(s, ls))
    decreases |ls|
  {
    hide Inv, Next;
    if ls != [] {
      NextInv(s, ls[0]);
      RunInv(Next(s, ls[0]), ls[1..]);
    }
  }

  lemma Reachable<T>(maxConns: nat, ls: seq<ServerLabel<T>>)
    ensures Inv(Run(Init<T>(maxConns), ls))
  {
    RunInv(Init<T>(maxConns), ls);
  }

  // ---------------------------------------------------------------- main results

  ghost function Owners<T>(s: Server<T>, o: T): set<nat> {
    set k | k in s.handlers && Owns(s, k) && s.handlers[k].obj == o
  }

  /** In how many places an object is: idle in the pool, with a handler, with the accept loop. An object
      in none of them was dropped by a full pool. */
  ghost function Places<T>(s: Server<T>, o: T): nat {
    multiset(s.pool.free)[o] + |Owners(s, o)| + if s.accept.HasObj() && s.accept.obj == o then 1 else 0
  }

  lemma {:induction false} DistinctMultiplicity<A>(xs: seq<A>, x: A)
    requires Distinct(xs)
    ensures multiset(xs)[x] == if x in xs then 1 else 0
  {
    if xs != [] {
      var n := |xs| - 1;
      assert xs == xs[..n] + [xs[n]];
      DistinctMultiplicity(xs[..n], x);
    }
  }

  /** No object is ever in two places, in any interleaving. */
  lemma SinglePlace<T>(maxConns: nat, ls: seq<ServerLabel<T>>, o: T)
    ensures Places(Run(Init<T>(maxConns), ls), o) <= 1
  {
    hide Run;
    var s := Run(Init<T>(maxConns), ls);
    Reachable(maxConns, ls);
    DistinctMultiplicity(s.pool.free, o);
    if Owners(s, o) != {} {
      var k :| k in Owners(s, o);
      assert Owners(s, o) == {k};
    }
  }

  /** Every map entry k holds an object with id k and the socket accepted as k; its user is the one that
      connection k itself last logged in as, 0 before its first login. */
  lemma ConnectionMap<T>(maxConns: nat, ls: seq<ServerLabel<T>>, k: nat)
    requires k in Run(Init<T>(maxConns), ls).connections
    ensures var s := Run(Init<T>(maxConns), ls);
            var o := s.connections[k];
            && o in s.heap && s.heap[o].id == k
            && k in s.sockOf && s.heap[o].sock == s.sockOf[k]
            && s.heap[o].userId == if k in s.loginOf then s.loginOf[k] else 0
  {
    hide Run;
    Reachable(maxConns, ls);
    ListedObject(Run(Init<T>(maxConns), ls), k);
  }

  lemma DistinctObjects<T>(maxConns: nat, ls: seq<ServerLabel<T>>, j: nat, k: nat)
    requires var s := Run(Init<T>(maxConns), ls); j in s.connections && k in s.connections && j != k
    ensures var s := Run(Init<T>(maxConns), ls); s.connections[j] != s.connections[k]
  {
    ConnectionMap(maxConns, ls, j);
    ConnectionMap(maxConns, ls, k);
  }

  /** A lookup by user finds nobody else, even if it reads an object that it loaded earlier: whatever object
      shows user u != 0, the connection that occupies it logged in as u and still has its handler. */
  lemma LookupFindsOwnUser<T>(maxConns: nat, ls: seq<ServerLabel<T>>, o: T, u: nat)
    requires var s := Run(Init<T>(maxConns), ls); u != 0 && o in s.heap && s.heap[o].userId == u
    ensures var s := Run(Init<T>(maxConns), ls);
            var k := s.heap[o].id;
            && k in s.loginOf && s.loginOf[k] == u
            && k in s.handlers && s.handlers[k].obj == o
  {
    hide Run;
    Reachable(maxConns, ls);
    var s := Run(Init<T>(maxConns), ls);
    assert CarriedBy(s, o, s.heap[o]);
  }

  /** The cap holds although connections are counted by a traversal that runs against deletions, and the
      pool never counts more creations than its limit. */
  lemma ConnectionCap<T>(maxConns: nat, ls: seq<ServerLabel<T>>)
    ensures var s := Run(Init<T>(maxConns), ls);
            |s.connections| <= maxConns && |s.pool.free| <= maxConns && s.pool.created <= maxConns
  {
    hide Run;
    Reachable(maxConns, ls);
    RunMaxConns(Init<T>(maxConns), ls);
  }

  lemma AcceptMaxConns<T>(s: Server<T>, l: AcceptLabel<T>)
    ensures AcceptNext(s, l).maxConns == s.maxConns
  {
  }

  lemma HandlerMaxConns<T>(s: Server<T>, k: nat, l: HandlerLabel)
    ensures HandlerNext(s, k, l).maxConns == s.maxConns
  {
  }

  lemma ControlMaxConns<T>(s: Server<T>, l: ControlLabel)
    ensures ControlNext(s, l).maxConns == s.maxConns
  {
  }

  lemma NextMaxConns<T>(s: Server<T>, l: ServerLabel<T>)
    ensures Next(s, l).maxConns == s.maxConns
  {
    match l
    case Accepting(a) => AcceptMaxConns(s, a);
    case Handling(k, h) => HandlerMaxConns(s, k, h);
    case Sweeping(w) => SweepOutside(s, w);
    case Controlling(c) => ControlMaxConns(s, c);
  }

  lemma {:induction false} RunMaxConns<T>(s: Server<T>, ls: seq<ServerLabel<T>>)
    ensures Run(s, ls).maxConns == s.maxConns
    decreases |ls|
  {
    if ls != [] {
      NextMaxConns(s, ls[0]);
      RunMaxConns(Next(s, ls[0]), ls[1..]);
    }
  }

  /** When the Wait of `Stop` can return, nothing of the run is left: no loop, no handler, an empty map;
      every id ever drawn has had its object put back exactly once, and every socket accepted, numbered or
      not, has been closed. */
  lemma DrainedStop<T>(maxConns: nat, ls: seq<ServerLabel<T>>)
    requires ControlEnabled(Run(Init<T>(maxConns), ls), StopReturn)
    ensures var s := Run(Init<T>(maxConns), ls);
            && s.accept.Dead? && s.sweep.Off? && s.handlers == map[] && s.connections == map[]
            && s.pool.put == s.pool.gotten == s.connCounter == |s.putLog|
            && (forall k :: multiset(s.putLog)[k] == if 1 <= k <= s.connCounter then 1 else 0)
            && s.arrived <= s.closedSocks
  {
    hide Run;
    var s := Run(Init<T>(maxConns), ls);
    Reachable(maxConns, ls);
    assert |s.handlers| == 0;
    assert s.handlers == map[];
    assert forall k :: k in s.sockOf ==> s.sockOf[k] in s.closedSocks;
    forall x | x in s.arrived ensures x in s.closedSocks {
      if Numbered(s, x) {
        var k :| k in s.sockOf && s.sockOf[k] == x;
      }
    }
    forall k ensures multiset(s.putLog)[k] == if 1 <= k <= s.connCounter then 1 else 0 {
      DistinctMultiplicity(s.putLog, k);
    }
    LogLength(s.putLog, s.connCounter);
  }

  lemma FirstIsMember(log: seq<nat>)
    requires log != []
    ensures exists k :: k in log
  {
    assert log[0] in log;
  }

  /** A log without repetition of exactly the numbers 1..n has length n. */
  lemma {:induction false} LogLength(log: seq<nat>, n: nat)
    requires Distinct(log) && forall k :: k in log <==> 1 <= k <= n
    ensures |log| == n
  {
    if n > 0 {
      assert n in log;
      var i :| 0 <= i < |log| && log[i] == n;
      var rest := log[..i] + log[i + 1..];
      forall k ensures k in rest <==> 1 <= k <= n - 1 {
        if k in log && k != n {
          var j :| 0 <= j < |log| && log[j] == k;
          assert k == rest[if j < i then j else j - 1];
        }
      }
      LogLength(rest, n - 1);
    } else if log != [] {
      FirstIsMember(log);
    }
  }

  /** A handler that has not announced its end is counted. */
  lemma LiveHandlerCounted<T>(maxConns: nat, ls: seq<ServerLabel<T>>, k: nat)
    requires k in Run(Init<T>(maxConns), ls).handlers
    ensures Run(Init<T>(maxConns), ls).wg > 0
  {
    var s := Run(Init<T>(maxConns), ls);
    Reachable(maxConns, ls);
    assert k in s.handlers.Keys;
    assert |s.handlers| > 0;
  }

  lemma IdleObjectExists<T>(maxConns: nat, ls: seq<ServerLabel<T>>)
    requires Run(Init<T>(maxConns), ls).pool.free != []
    ensures var s := Run(Init<T>(maxConns), ls); s.pool.free[0] in s.heap
  {
    Reachable(maxConns, ls);
    var s := Run(Init<T>(maxConns), ls);
    assert s.pool.free[0] in s.pool.free;
  }
}
