/** The server's objects. `TCPServer` keeps, as ghost state, the state of the step system and the labels of
    all atomic steps that led to it; `Valid` says that its fields are that state's, so what is proved of
    every run of the system holds of the object after every method. */
module Network {
  import opened Wrappers
  import opened ObjectPool
  import TcpServer
  import TcpInvariant

  class Connection {
    var id: nat
    var userId: nat
    var sessionId: string
    var lastActivity: int
    var sock: nat

    constructor ()
      ensures Fields() == TcpServer.BLANK
    {
      id, userId, sessionId, lastActivity, sock := 0, 0, "", 0, 0;
    }

    function Fields(): TcpServer.Record
      reads this
    {
      TcpServer.Record(id, userId, sessionId, lastActivity, sock)
    }

    method Reset()
      modifies this
      ensures Fields() == TcpServer.Reset(old(Fields()))
    {
      userId := 0;
      sessionId := "";
      lastActivity := 0;
    }
  }

  type State = TcpServer.Server<Connection>
  type Label = TcpServer.ServerLabel<Connection>

  /** The end of a count that covered every key. */
  lemma CountEnds(s: State, sock: nat)
    requires s.accept == TcpServer.Counting(sock, s.connections.Keys, s.connections.Keys)
    ensures |s.connections| >= s.maxConns ==>
              TcpServer.AcceptNext(s, TcpServer.EndCount)
              == s.(accept := TcpServer.Head, closedSocks := s.closedSocks + {sock})
    ensures |s.connections| < s.maxConns ==>
              TcpServer.AcceptNext(s, TcpServer.EndCount) == s.(accept := TcpServer.UnderCap(sock))
  {
    assert s.connections.Keys * s.connections.Keys == s.connections.Keys;
    assert s.closedSocks + {} == s.closedSocks;
  }

  class TCPServer {
    const maxConns: nat
    const connPool: GenericPool<Connection>
    var connections: map<nat, Connection>
    var connCounter: nat
    var running: bool
    var cancelled: bool
    var wg: nat

    /** The sockets this side has closed. */
    var closedSocks: set<nat>

    ghost var objects: set<Connection>
    ghost var state: State
    ghost var trace: seq<Label>

    ghost function Records(): map<Connection, TcpServer.Record>
      reads this`objects, objects
    {
      map o | o in objects :: o.Fields()
    }

    /** The fields are those of s. */
    ghost predicate Shows(s: State)
      reads this`connections, this`connCounter, this`running, this`cancelled, this`wg, this`closedSocks, this`objects,
            connPool, objects
    {
      && s.maxConns == maxConns && s.connections == connections && s.connCounter == connCounter
      && s.running == running && s.cancelled == cancelled && s.wg == wg && s.closedSocks == closedSocks
      && s.heap == Records() && s.pool == connPool.Fields()
    }

    ghost predicate Traced()
      reads this`state, this`trace
    {
      state == TcpServer.Run(TcpServer.Init(maxConns), trace)
    }

    ghost predicate Valid()
      reads this, connPool, objects
    {
      connPool.Valid() && Traced() && Shows(state)
    }

    lemma Invariant()
      requires Traced()
      ensures TcpInvariant.Inv(state)
    {
      hide TcpInvariant.Inv;
      TcpInvariant.Reachable<Connection>(maxConns, trace);
    }

    /** The object listed under k is the one connection k uses. */
    lemma Entry(k: nat)
      requires Valid() && k in connections
      ensures connections[k] in objects && connections[k].id == k
      ensures k in state.sockOf && connections[k].sock == state.sockOf[k]
      ensures connections[k].userId == if k in state.loginOf then state.loginOf[k] else 0
    {
      hide Traced;
      Invariant();
      hide TcpInvariant.Ownership, TcpInvariant.Numbering, TcpInvariant.Sockets, TcpInvariant.Identity,
           TcpInvariant.Carried, TcpInvariant.Listed;
      TcpInvariant.ListedObject(state, k);
      assert state.heap[connections[k]] == connections[k].Fields();
    }

    /** One step of the system, which the fields have already made. */
    ghost method Advance(l: Label)
      requires connPool.Valid() && Traced() && Shows(TcpServer.Next(state, l))
      modifies this`state, this`trace
      ensures Valid() && state == TcpServer.Next(old(state), l) && trace == old(trace) + [l]
    {
      hide TcpServer.Next, TcpServer.Run;
      TcpServer.RunSnoc(TcpServer.Init(maxConns), trace, l);
      state := TcpServer.Next(state, l);
      trace := trace + [l];
    }

    constructor (maxConns: nat)
      ensures Valid() && trace == [] && fresh(connPool)
    {
      this.maxConns := maxConns;
      connPool := new GenericPool<Connection>(maxConns);
      connections, connCounter, running, cancelled, wg := map[], 0, false, false, 0;
      closedSocks, objects := {}, {};
      state, trace := TcpServer.Init(maxConns), [];
      new;
      assert Records() == map[];
    }

    // -------------------------------------------------------------- lookups

    method GetConnectionCount() returns (count: nat)
      ensures count == |connections|
    {
      count := 0;
      var keys := connections.Keys;
      while keys != {}
        invariant keys <= connections.Keys && count + |keys| == |connections|
        decreases |keys|
      {
        var k :| k in keys;
        keys := keys - {k};
        count := count + 1;
      }
    }

    /** In a valid server the connection found for a real user is one whose own occupant logged in as
        that user, and no such connection is missed. */
    method GetConnectionByUserID(user: nat) returns (result: Option<Connection>)
      requires Valid()
      ensures result.Some? ==> exists k :: k in connections && connections[k] == result.value
                                 && result.value.userId == user && result.value.id == k
                                 && (user != 0 ==> k in state.loginOf && state.loginOf[k] == user)
      ensures result.None? ==> forall k :: k in connections ==> connections[k].userId != user
    {
      var keys := connections.Keys;
      while keys != {}
        invariant keys <= connections.Keys
        invariant forall k :: k in connections && k !in keys ==> connections[k].userId != user
        decreases |keys|
      {
        var k :| k in keys;
        if connections[k].userId == user {
          Entry(k);
          return Some(connections[k]);
        }
        keys := keys - {k};
      }
      result := None;
    }

    // -------------------------------------------------------------- Start and Stop

    method Start() returns (ok: bool)
      requires Valid() && state.stop.NoStop?
      modifies this
      ensures Valid() && ok == !old(running)
      ensures ok ==> running && wg == old(wg) + 2 && state.accept.Head? && state.sweep.Idle?
      ensures state == TcpServer.ControlNext(old(state), TcpServer.Start)
    {
      hide Traced, Records;
      ok := !running;
      if ok {
        running, wg := true, wg + 2;
        Advance(TcpServer.Controlling(TcpServer.Start));
      }
    }

    ghost method LoadListed(k: nat)
      requires Valid() && state.stop.ClosingAll? && k in connections
      modifies this`state, this`trace
      ensures Valid() && state.stop == TcpServer.ClosingOne(connections[k])
    {
      hide Traced, Records;
      Advance(TcpServer.Controlling(TcpServer.StopLoad(k)));
    }

    method CloseListed(k: nat)
      requires Valid() && state.stop.ClosingAll? && k in connections
      modifies this`closedSocks, this`state, this`trace
      ensures Valid() && state.stop.ClosingAll? && closedSocks == old(closedSocks) + {connections[k].sock}
    {
      Entry(k);
      hide Traced;
      var conn := connections[k];
      LoadListed(k);
      assert state.heap[conn] == conn.Fields();
      hide Records;
      TcpServer.StopSteps(state);
      hide TcpServer.ControlNext;
      closedSocks := closedSocks + {conn.sock};
      Advance(TcpServer.Controlling(TcpServer.StopClose));
    }

    method BeginStop()
      requires Valid() && state.stop.NoStop? && running
      modifies this`running, this`cancelled, this`state, this`trace
      ensures Valid() && !running && cancelled && state.stop.ClosingAll?
    {
      hide Traced, Records;
      running, cancelled := false, true;
      Advance(TcpServer.Controlling(TcpServer.Stop));
    }

    ghost method BeginWait()
      requires Valid() && state.stop.ClosingAll?
      modifies this`state, this`trace
      ensures Valid() && state.stop.WaitingForAll?
    {
      hide Traced, Records;
      Advance(TcpServer.Controlling(TcpServer.StopWait));
    }

    /** `Stop` up to its Wait: the sockets of all connections listed, and no others, have been closed. */
    method StopAndClose()
      requires Valid() && state.stop.NoStop? && running
      modifies this`running, this`cancelled, this`closedSocks, this`state, this`trace
      ensures Valid() && !running && cancelled && state.stop.WaitingForAll?
      ensures forall k :: k in connections ==> connections[k].sock in closedSocks
      ensures forall x :: x in closedSocks ==>
                x in old(closedSocks) || exists k :: k in connections && connections[k].sock == x
    {
      hide Traced, Shows;
      BeginStop();
      var keys := connections.Keys;
      while keys != {}
        invariant Valid() && !running && cancelled && state.stop.ClosingAll? && keys <= connections.Keys
        invariant forall k :: k in connections && k !in keys ==> connections[k].sock in closedSocks
        invariant forall x :: x in closedSocks ==>
                    x in old(closedSocks) || exists k :: k in connections && connections[k].sock == x
        decreases |keys|
      {
        var k :| k in keys;
        CloseListed(k);
        keys := keys - {k};
      }
      BeginWait();
    }

    /** The Wait of `Stop` returns when the counter is 0; by then nothing is left to wait for. */
    method ReturnFromStop()
      requires Valid() && state.stop.WaitingForAll? && wg == 0
      modifies this`state, this`trace
      ensures Valid() && state.stop.NoStop?
      ensures connections == map[] && state.handlers == map[]
      ensures connPool.put == connCounter && state.arrived <= closedSocks
    {
      TcpInvariant.DrainedStop(maxConns, trace);
      hide Traced, Records;
      Advance(TcpServer.Controlling(TcpServer.StopReturn));
    }

    // -------------------------------------------------------------- one turn of the accept loop

    ghost method ArriveSocket(sock: nat)
      requires Valid() && state.accept.Blocked? && sock !in state.arrived
      modifies this`state, this`trace
      ensures Valid()
      ensures state == old(state).(accept := TcpServer.Accepted(sock), arrived := old(state).arrived + {sock})
    {
      hide Traced, Records;
      TcpServer.EntrySteps(state);
      hide TcpServer.AcceptNext;
      Advance(TcpServer.Accepting(TcpServer.Arrive(sock)));
    }

    ghost method BeginCount(sock: nat)
      requires Valid() && state.accept == TcpServer.Accepted(sock)
      modifies this`state, this`trace
      ensures Valid() && state == old(state).(accept := TcpServer.Counting(sock, connections.Keys, {}))
    {
      hide Traced, Records;
      TcpServer.EntrySteps(state);
      hide TcpServer.AcceptNext;
      Advance(TcpServer.Accepting(TcpServer.BeginCount));
    }

    ghost method VisitConnection(sock: nat, k: nat, visited: set<nat>)
      requires Valid() && state.accept == TcpServer.Counting(sock, connections.Keys, visited)
      requires k in connections && k !in visited
      modifies this`state, this`trace
      ensures Valid() && state == old(state).(accept := TcpServer.Counting(sock, connections.Keys, visited + {k}))
    {
      hide Traced, Records;
      Advance(TcpServer.Accepting(TcpServer.Visit(k)));
    }

    /** `GetConnectionCount` as the accept loop runs it, with nothing in between. */
    method CountConnections(sock: nat) returns (count: nat)
      requires Valid() && state.accept == TcpServer.Accepted(sock)
      modifies this`state, this`trace
      ensures Valid() && count == |connections|
      ensures state == old(state).(accept := TcpServer.Counting(sock, connections.Keys, connections.Keys))
    {
      hide Traced, Shows;
      BeginCount(sock);
      count := 0;
      var visited := {};
      while visited != connections.Keys
        invariant Valid() && visited <= connections.Keys && count == |visited|
        invariant state == old(state).(accept := TcpServer.Counting(sock, connections.Keys, visited))
        decreases connections.Keys - visited
      {
        var k :| k in connections && k !in visited;
        VisitConnection(sock, k, visited);
        visited := visited + {k};
        count := count + 1;
      }
    }

    method RejectLimited(sock: nat)
      requires Valid() && state.accept == TcpServer.Accepted(sock)
      modifies this`closedSocks, this`state, this`trace
      ensures Valid() && closedSocks == old(closedSocks) + {sock}
      ensures state == old(state).(accept := TcpServer.Head, closedSocks := closedSocks)
    {
      hide Traced, Records;
      TcpServer.EntrySteps(state);
      hide TcpServer.AcceptNext;
      closedSocks := closedSocks + {sock};
      Advance(TcpServer.Accepting(TcpServer.Limit));
    }

    method RejectFull(sock: nat)
      requires Valid() && state.accept == TcpServer.Counting(sock, connections.Keys, connections.Keys)
      requires |connections| >= maxConns
      modifies this`closedSocks, this`state, this`trace
      ensures Valid() && closedSocks == old(closedSocks) + {sock}
      ensures state == old(state).(accept := TcpServer.Head, closedSocks := closedSocks)
    {
      hide Traced, Records;
      CountEnds(state, sock);
      hide TcpServer.AcceptNext;
      closedSocks := closedSocks + {sock};
      Advance(TcpServer.Accepting(TcpServer.EndCount));
    }

    ghost method PassCap(sock: nat)
      requires Valid() && state.accept == TcpServer.Counting(sock, connections.Keys, connections.Keys)
      requires |connections| < maxConns
      modifies this`state, this`trace
      ensures Valid() && state == old(state).(accept := TcpServer.UnderCap(sock))
    {
      hide Traced, Records;
      CountEnds(state, sock);
      hide TcpServer.AcceptNext;
      Advance(TcpServer.Accepting(TcpServer.EndCount));
    }

    /** The checks of one turn of the accept loop. */
    method Admit(sock: nat, allowed: bool) returns (admitted: bool)
      requires Valid() && state.accept.Blocked? && sock !in state.arrived
      modifies this`closedSocks, this`state, this`trace
      ensures Valid() && admitted == (allowed && |connections| < maxConns)
      ensures state == old(state).(accept := if admitted then TcpServer.UnderCap(sock) else TcpServer.Head,
                                   arrived := old(state).arrived + {sock}, closedSocks := closedSocks)
      ensures closedSocks == old(closedSocks) + (if admitted then {} else {sock})
    {
      hide Traced, Records;
      ArriveSocket(sock);
      if !allowed {
        RejectLimited(sock);
        return false;
      }
      var count := CountConnections(sock);
      admitted := count < maxConns;
      if admitted { PassCap(sock); } else { RejectFull(sock); }
    }

    method NumberConnection() returns (id: nat)
      requires Valid() && state.accept.UnderCap?
      modifies this`connCounter, this`state, this`trace, connPool`gotten
      ensures Valid() && id == connCounter == old(connCounter) + 1 && state == TcpServer.Drawn(old(state))
      ensures state.accept == TcpServer.Getting(old(state).accept.sock, id) && state.handlers == old(state).handlers
    {
      hide Traced, Records;
      TcpServer.EntrySteps(state);
      hide TcpServer.AcceptNext;
      connCounter := connCounter + 1;
      id := connCounter;
      connPool.BeginGet();
      Advance(TcpServer.Accepting(TcpServer.Number));
    }

    /** Only the accept loop's place, the pool and the fields of objects are not those of s. */
    ghost predicate Unmoved(s: State)
      reads this`state
    {
      state == s.(accept := state.accept, heap := state.heap, pool := state.pool)
    }

    method TakeIdle() returns (conn: Connection)
      requires Valid() && (state.accept.Getting? || state.accept.Queueing?) && connPool.pool != []
      modifies this`state, this`trace, connPool`pool, connPool`hits
      ensures Valid() && conn == old(connPool.pool)[0] && conn in objects
      ensures Unmoved(old(state)) && connPool.created == old(connPool.created)
      ensures state.accept == TcpServer.Holding(old(state).accept.sock, old(state).accept.id, conn)
    {
      TcpInvariant.IdleObjectExists<Connection>(maxConns, trace);
      hide Traced, Records;
      conn := connPool.Receive();
      Advance(TcpServer.Accepting(TcpServer.TakeIdle));
    }

    /** The factory's object; `created` counts it if it was made below the limit. */
    method Make(counted: bool) returns (conn: Connection)
      requires Valid()
      requires if counted then state.accept.Missing? && connPool.created < connPool.maxSize else state.accept.Queueing?
      modifies this`objects, this`state, this`trace, connPool`created
      ensures Valid() && fresh(conn) && objects == old(objects) + {conn}
      ensures connPool.created == old(connPool.created) + if counted then 1 else 0
      ensures state.accept == TcpServer.Holding(old(state).accept.sock, old(state).accept.id, conn)
      ensures Unmoved(old(state))
    {
      hide Traced;
      conn := new Connection();
      objects := objects + {conn};
      TcpServer.MakeSteps(state, conn);
      hide TcpServer.AcceptNext;
      assert Records() == state.heap[conn := TcpServer.BLANK];
      if counted {
        connPool.CountCreation();
        Advance(TcpServer.Accepting(TcpServer.Create(conn)));
      } else {
        Advance(TcpServer.Accepting(TcpServer.Expire(conn)));
      }
    }

    /** The last access of Put: the handler's object is offered to the pool. */
    method OfferBack(conn: Connection)
      requires Valid() && Handled(conn, TcpServer.Cleared)
      modifies this`state, this`trace, connPool`pool, connPool`queued, connPool`discarded
      ensures Valid() && connPool.Fields() == Offer(old(connPool.Fields()), conn)
      ensures state == TcpServer.PutOffered(old(state), conn.id)
    {
      hide Traced;
      assert state.heap[conn] == conn.Fields();
      hide Records;
      TcpServer.HandlerSteps(state, conn.id);
      hide TcpServer.HandlerNext;
      connPool.Keep(conn);
      Advance(TcpServer.Handling(conn.id, TcpServer.PutOffer));
    }

    /** The wait at the end of Get. `arrival` is a connection whose handler offers it to the pool meanwhile. */
    method Await(arrival: Option<Connection>) returns (conn: Connection)
      requires Valid() && state.accept.Queueing? && connPool.pool == [] && connPool.maxSize > 0
      requires arrival.Some? ==> Handled(arrival.value, TcpServer.Cleared)
      modifies this`objects, this`state, this`trace, connPool
      ensures Valid() && state.accept == TcpServer.Holding(old(state).accept.sock, old(state).accept.id, conn)
      ensures conn in objects && (conn in old(objects) || fresh(conn)) && connPool.created == old(connPool.created)
      ensures if arrival.Some? then conn == arrival.value else fresh(conn)
      ensures arrival.None? ==> Unmoved(old(state))
    {
      hide Traced, Records;
      if arrival.Some? {
        OfferBack(arrival.value);
        conn := TakeIdle();
      } else {
        conn := Make(false);
      }
    }

    /** `connPool.Get()`, access by access. */
    method Obtain(arrival: Option<Connection>) returns (conn: Connection)
      requires Valid() && state.accept.Getting?
      requires arrival.Some? ==> Handled(arrival.value, TcpServer.Cleared)
      modifies this`objects, this`state, this`trace, connPool
      ensures Valid() && state.accept == TcpServer.Holding(old(state).accept.sock, old(state).accept.id, conn)
      ensures conn in objects && (conn in old(objects) || fresh(conn))
      ensures old(connPool.pool) != [] ==> conn == old(connPool.pool)[0] && connPool.created == old(connPool.created)
      ensures old(connPool.pool) == [] && old(connPool.created) < connPool.maxSize ==>
                fresh(conn) && connPool.created == old(connPool.created) + 1
      ensures old(connPool.pool) == [] && old(connPool.created) >= connPool.maxSize ==>
                connPool.created == old(connPool.created)
                && if arrival.Some? then conn == arrival.value else fresh(conn)
      ensures arrival.None? ==> Unmoved(old(state))
    {
      hide Traced, Records;
      Room();
      if connPool.pool != [] {
        conn := TakeIdle();
        return;
      }
      TcpServer.PoolSteps(state);
      hide TcpServer.AcceptNext;
      Advance(TcpServer.Accepting(TcpServer.Miss));
      if connPool.created < connPool.maxSize {
        conn := Make(true);
      } else {
        TcpServer.PoolSteps(state);
        Advance(TcpServer.Accepting(TcpServer.Refuse));
        conn := Await(arrival);
      }
    }

    /** Past the cap check the pool has room: its capacity is the cap. */
    lemma Room()
      requires Valid() && state.accept.Getting?
      ensures connPool.maxSize == maxConns > 0
    {
      hide Traced;
      Invariant();
      assert TcpInvariant.Capacity(state);
    }

    method BindConnection(sock: nat, id: nat, conn: Connection, now: int)
      requires Valid() && state.accept == TcpServer.Holding(sock, id, conn) && conn in objects
      modifies this`state, this`trace, conn
      ensures Valid() && conn.Fields() == TcpServer.Record(id, 0, "", now, sock)
      ensures state == TcpServer.BoundTo(old(state), now)
      ensures state.accept == TcpServer.Bound(id, conn) && state.handlers == old(state).handlers
    {
      hide Traced;
      TcpServer.LateSteps(state);
      hide TcpServer.AcceptNext;
      conn.Reset();
      conn.id := id;
      conn.sock := sock;
      conn.lastActivity := now;
      assert Records() == state.heap[conn := conn.Fields()];
      Advance(TcpServer.Accepting(TcpServer.Bind(now)));
    }

    method StoreAndSpawn(id: nat, conn: Connection)
      requires Valid() && state.accept == TcpServer.Bound(id, conn)
      modifies this`connections, this`wg, this`state, this`trace
      ensures Valid() && connections == old(connections)[id := conn] && wg == old(wg) + 1
      ensures state.accept.Head?
      ensures state.handlers == old(state).handlers[id := TcpServer.Handler(conn, TcpServer.Serving)]
      ensures state == TcpServer.Spawned(TcpServer.Awaited(TcpServer.InMap(old(state))))
    {
      hide Traced, Records;
      TcpServer.LateSteps(state);
      hide TcpServer.AcceptNext;
      connections := connections[id := conn];
      Advance(TcpServer.Accepting(TcpServer.Store));
      TcpServer.LateSteps(state);
      wg := wg + 1;
      Advance(TcpServer.Accepting(TcpServer.Add));
      TcpServer.LateSteps(state);
      Advance(TcpServer.Accepting(TcpServer.Spawn));
    }

    /** What follows for a socket that passed the checks. */
    method TakeOn(sock: nat, now: int) returns (conn: Connection)
      requires Valid() && state.accept == TcpServer.UnderCap(sock)
      modifies this`connCounter, this`objects, this`connections, this`wg, this`state, this`trace, connPool, objects
      ensures Valid() && state.accept.Head? && connCounter == old(connCounter) + 1 && wg == old(wg) + 1
      ensures conn.Fields() == TcpServer.Record(connCounter, 0, "", now, sock)
      ensures connections == old(connections)[connCounter := conn]
      ensures state.handlers == old(state).handlers[connCounter := TcpServer.Handler(conn, TcpServer.Serving)]
    {
      hide Traced, Shows, Records, TcpServer.Drawn, TcpServer.BoundTo, TcpServer.InMap, TcpServer.Awaited,
           TcpServer.Spawned;
      var id := NumberConnection();
      conn := Obtain(None);
      BindConnection(sock, id, conn, now);
      StoreAndSpawn(id, conn);
    }

    /** One turn of the accept loop for an accepted socket, uninterrupted. A connection is taken on iff
        the limiter allows it and the map is below the cap; it is then listed under a fresh id with an
        object that carries this id, this socket and no user, and has a handler counted in `wg`. */
    method AcceptOne(sock: nat, allowed: bool, now: int) returns (result: Option<Connection>)
      requires Valid() && state.accept.Blocked? && sock !in state.arrived
      modifies this`connCounter, this`objects, this`closedSocks, this`connections, this`wg, this`state, this`trace,
               connPool, objects
      ensures Valid() && state.accept.Head?
      ensures result.Some? == (allowed && |old(connections)| < maxConns)
      ensures result.None? ==>
                && connections == old(connections) && connCounter == old(connCounter) && wg == old(wg)
                && state.handlers == old(state).handlers && closedSocks == old(closedSocks) + {sock}
      ensures result.Some? ==>
                && connCounter == old(connCounter) + 1 && closedSocks == old(closedSocks)
                && result.value.Fields() == TcpServer.Record(connCounter, 0, "", now, sock)
                && connections == old(connections)[connCounter := result.value]
                && state.handlers == old(state).handlers[connCounter := TcpServer.Handler(result.value, TcpServer.Serving)]
                && wg == old(wg) + 1
    {
      hide Traced, Shows, Records;
      var admitted := Admit(sock, allowed);
      if !admitted {
        return None;
      }
      var conn := TakeOn(sock, now);
      result := Some(conn);
    }

    // -------------------------------------------------------------- the heartbeat sweeper

    method InspectConnection(now: int, k: nat, expired: seq<nat>) returns (expired': seq<nat>)
      requires Valid() && state.sweep == TcpServer.Scanning(now, expired) && k in connections
      modifies this`state, this`trace
      ensures Valid() && state.sweep == TcpServer.Scanning(now, expired')
      ensures expired' == expired + if now - connections[k].lastActivity > TcpServer.IDLE_LIMIT then [k] else []
    {
      Entry(k);
      hide Traced;
      var conn := connections[k];
      Advance(TcpServer.Sweeping(TcpServer.Look(k)));
      expired' := expired;
      if now - conn.lastActivity > TcpServer.IDLE_LIMIT {
        expired' := expired' + [k];
      }
      assert state.heap[conn] == conn.Fields();
      Advance(TcpServer.Sweeping(TcpServer.Inspect));
    }

    method ScanAll(now: int) returns (expired: seq<nat>)
      requires Valid() && state.sweep == TcpServer.Scanning(now, [])
      modifies this`state, this`trace
      ensures Valid() && state.sweep == TcpServer.Scanning(now, expired)
      ensures forall k :: k in expired <==>
                k in connections && now - connections[k].lastActivity > TcpServer.IDLE_LIMIT
    {
      hide Traced, Shows;
      expired := [];
      var keys := connections.Keys;
      while keys != {}
        invariant Valid() && keys <= connections.Keys && state.sweep == TcpServer.Scanning(now, expired)
        invariant forall k :: k in expired <==>
                    k in connections && k !in keys && now - connections[k].lastActivity > TcpServer.IDLE_LIMIT
        decreases |keys|
      {
        var k :| k in keys;
        expired := InspectConnection(now, k, expired);
        keys := keys - {k};
      }
    }

    ghost method LoadFirst(expired: seq<nat>)
      requires Valid() && state.sweep == TcpServer.Kicking(expired) && expired != [] && expired[0] in connections
      modifies this`state, this`trace
      ensures Valid() && state.sweep == TcpServer.Loaded(expired[0], connections[expired[0]], expired[1..])
    {
      hide Traced, Records;
      TcpServer.KickSteps(state);
      hide TcpServer.SweepNext;
      Advance(TcpServer.Sweeping(TcpServer.KickLoad));
    }

    method KickFirst(expired: seq<nat>)
      requires Valid() && state.sweep == TcpServer.Kicking(expired) && expired != [] && expired[0] in connections
      modifies this`closedSocks, this`state, this`trace
      ensures Valid() && state.sweep == TcpServer.Kicking(expired[1..])
      ensures closedSocks == old(closedSocks) + {connections[expired[0]].sock}
    {
      Entry(expired[0]);
      hide Traced;
      var conn := connections[expired[0]];
      LoadFirst(expired);
      assert state.heap[conn] == conn.Fields();
      hide Records;
      TcpServer.KickSteps(state);
      hide TcpServer.SweepNext;
      closedSocks := closedSocks + {conn.sock};
      Advance(TcpServer.Sweeping(TcpServer.KickClose));
    }

    method KickAll(expired: seq<nat>)
      requires Valid() && state.sweep == TcpServer.Kicking(expired)
      requires forall j :: 0 <= j < |expired| ==> expired[j] in connections
      modifies this`closedSocks, this`state, this`trace
      ensures Valid() && state.sweep == TcpServer.Kicking([]) && old(closedSocks) <= closedSocks
      ensures forall j :: 0 <= j < |expired| ==> connections[expired[j]].sock in closedSocks
      ensures forall x :: x in closedSocks && x !in old(closedSocks) ==>
                exists j :: 0 <= j < |expired| && connections[expired[j]].sock == x
    {
      hide Traced, Shows;
      for i := 0 to |expired|
        invariant Valid() && state.sweep == TcpServer.Kicking(expired[i..])
        invariant old(closedSocks) <= closedSocks
        invariant forall j :: 0 <= j < i ==> connections[expired[j]].sock in closedSocks
        invariant forall x :: x in closedSocks && x !in old(closedSocks) ==>
                    exists j :: 0 <= j < i && connections[expired[j]].sock == x
      {
        KickFirst(expired[i..]);
      }
    }

    /** One tick of the heartbeat loop, uninterrupted: it closes the sockets of the connections that have
        been idle for more than the limit, and no others. */
    method HeartbeatTick(now: int)
      requires Valid() && state.sweep.Idle?
      modifies this`closedSocks, this`state, this`trace
      ensures Valid() && state.sweep.Idle? && old(closedSocks) <= closedSocks
      ensures forall k :: k in connections && now - connections[k].lastActivity > 60 ==>
                connections[k].sock in closedSocks
      ensures forall x :: x in closedSocks && x !in old(closedSocks) ==>
                exists k :: k in connections && connections[k].sock == x
                            && now - connections[k].lastActivity > 60
    {
      hide Traced, Records;
      TcpServer.ScanSteps(state);
      hide TcpServer.SweepNext;
      Advance(TcpServer.Sweeping(TcpServer.Tick(now)));
      var expired := ScanAll(now);
      TcpServer.ScanSteps(state);
      Advance(TcpServer.Sweeping(TcpServer.EndScan));
      KickAll(expired);
      TcpServer.ScanSteps(state);
      Advance(TcpServer.Sweeping(TcpServer.EndKick));
    }

    // -------------------------------------------------------------- the handler of a connection

    /** `conn` is the argument of a live handler that has reached `phase`. */
    ghost predicate Handled(conn: Connection, phase: TcpServer.HandlerPhase)
      reads this`objects, this`state, conn
    {
      conn in objects && conn.id in state.handlers && state.handlers[conn.id] == TcpServer.Handler(conn, phase)
    }

    /** Read, Write and the heartbeat message stamp the connection. */
    method HandleActivity(conn: Connection, now: int)
      requires Valid() && Handled(conn, TcpServer.Serving)
      modifies this`state, this`trace, conn`lastActivity
      ensures Valid() && conn.lastActivity == now && state == TcpServer.Stamped(old(state), conn.id, now)
    {
      hide Traced;
      conn.lastActivity := now;
      assert Records() == state.heap[conn := state.heap[conn].(lastActivity := now)];
      Advance(TcpServer.Handling(conn.id, TcpServer.Activity(now)));
    }

    /** A successful login binds the user that the login service answered with. */
    method HandleLogin(conn: Connection, user: nat)
      requires Valid() && Handled(conn, TcpServer.Serving)
      modifies this`state, this`trace, conn`userId
      ensures Valid() && conn.userId == user && state == TcpServer.LoggedIn(old(state), conn.id, user)
    {
      hide Traced;
      conn.userId := user;
      assert Records() == state.heap[conn := state.heap[conn].(userId := user)];
      Advance(TcpServer.Handling(conn.id, TcpServer.Login(user)));
    }

    /** The logout message closes the socket; the handler's next read then fails. */
    method HandleLogout(conn: Connection)
      requires Valid() && Handled(conn, TcpServer.Serving)
      modifies this`closedSocks, this`state, this`trace
      ensures Valid() && closedSocks == old(closedSocks) + {conn.sock} && state == TcpServer.Hung(old(state), conn.id)
      ensures Handled(conn, TcpServer.Serving)
    {
      hide Traced;
      assert state.heap[conn] == conn.Fields();
      hide Records;
      closedSocks := closedSocks + {conn.sock};
      Advance(TcpServer.Handling(conn.id, TcpServer.Logout));
    }

    method CloseConnection(conn: Connection)
      requires Valid() && Handled(conn, TcpServer.Serving)
      modifies this`closedSocks, this`state, this`trace
      ensures Valid() && closedSocks == old(closedSocks) + {conn.sock} && state == TcpServer.Shut(old(state), conn.id)
    {
      hide Traced;
      assert state.heap[conn] == conn.Fields();
      hide Records;
      TcpServer.HandlerSteps(state, conn.id);
      hide TcpServer.HandlerNext;
      closedSocks := closedSocks + {conn.sock};
      Advance(TcpServer.Handling(conn.id, TcpServer.Close));
    }

    method DeleteConnection(conn: Connection)
      requires Valid() && Handled(conn, TcpServer.Closed)
      modifies this`connections, this`state, this`trace
      ensures Valid() && connections == old(connections) - {conn.id} && state == TcpServer.Unlisted(old(state), conn.id)
    {
      hide Traced;
      assert state.heap[conn] == conn.Fields();
      hide Records;
      TcpServer.HandlerSteps(state, conn.id);
      hide TcpServer.HandlerNext;
      connections := connections - {conn.id};
      Advance(TcpServer.Handling(conn.id, TcpServer.Delete));
    }

    /** Put up to its reset. */
    method CountAndClear(conn: Connection)
      requires Valid() && Handled(conn, TcpServer.Deleted)
      modifies this`state, this`trace, connPool`put, conn
      ensures Valid() && connPool.put == old(connPool.put) + 1
      ensures conn.Fields() == TcpServer.Reset(old(conn.Fields()))
      ensures state == TcpServer.PutCleared(TcpServer.PutCounted(old(state), conn.id), conn.id)
    {
      hide Traced;
      TcpServer.HandlerSteps(state, conn.id);
      hide TcpServer.HandlerNext;
      connPool.BeginPut();
      Advance(TcpServer.Handling(conn.id, TcpServer.PutCount));
      TcpServer.HandlerSteps(state, conn.id);
      assert state.heap[conn] == conn.Fields();
      conn.Reset();
      assert Records() == state.heap[conn := TcpServer.Reset(state.heap[conn])];
      Advance(TcpServer.Handling(conn.id, TcpServer.PutReset));
    }

    method FinishHandler(conn: Connection)
      requires Valid() && Handled(conn, TcpServer.Returned)
      modifies this`wg, this`state, this`trace
      ensures Valid() && wg == old(wg) - 1 && state == TcpServer.Finished(old(state), conn.id)
    {
      TcpInvariant.LiveHandlerCounted<Connection>(maxConns, trace, conn.id);
      hide Traced, Records;
      wg := wg - 1;
      Advance(TcpServer.Handling(conn.id, TcpServer.Done));
    }

    /** The deferred function of `handleConnection`. */
    method CleanUp(conn: Connection)
      requires Valid() && Handled(conn, TcpServer.Serving)
      modifies this`closedSocks, this`connections, this`wg, this`state, this`trace, connPool, conn
      ensures Valid() && conn.id == old(conn.id)
      ensures conn.userId == 0 && conn.sessionId == "" && old(conn.sock) in closedSocks
      ensures connections == old(connections) - {conn.id}
      ensures state.handlers == old(state).handlers - {conn.id} && wg == old(wg) - 1
      ensures state.putLog == old(state).putLog + [conn.id]
      ensures connPool.Fields() == Offer(old(connPool.Fields()).(put := old(connPool.put) + 1), conn)
    {
      hide Traced, Shows;
      CloseConnection(conn);
      DeleteConnection(conn);
      CountAndClear(conn);
      OfferBack(conn);
      FinishHandler(conn);
    }
  }
}
