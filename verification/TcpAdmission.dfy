/** What admits a socket, and what a Stop still lets in. */
module TcpAdmission {
  import opened TcpServer
  import opened TcpInvariant

  // ---------------------------------------------------------------- the count of one socket

  /** While the loop counts for `sock`, the map is within the keys it had at the beginning, and so is what the
      traversal has seen; the socket arrives only once. */
  predicate CountsFor<T>(s: Server<T>, sock: nat, keys: set<nat>) {
    && sock in s.arrived
    && !(s.accept.Blocked? && sock !in s.arrived)
    && (s.accept.HasSock() && s.accept.sock == sock ==>
          match s.accept
          case Counting(_, start, visited) => start == keys && visited <= keys && s.connections.Keys <= keys
          case UnderCap(_) => true
          case _ => false)
  }

  lemma AcceptCountsFor<T>(s: Server<T>, l: AcceptLabel<T>, sock: nat, keys: set<nat>)
    requires CountsFor(s, sock, keys)
    ensures CountsFor(AcceptNext(s, l), sock, keys)
  {
  }

  /** A handler leaves the accept loop alone, lists nothing and makes no object. */
  lemma HandlerLeaves<T>(s: Server<T>, k: nat, l: HandlerLabel)
    ensures var t := HandlerNext(s, k, l);
            && t.accept == s.accept && t.arrived == s.arrived && t.connCounter == s.connCounter
            && t.connections.Keys <= s.connections.Keys && t.running == s.running
            && t.pool.created == s.pool.created && t.pool.maxSize == s.pool.maxSize
  {
  }

  lemma SweepLeaves<T>(s: Server<T>, l: SweepLabel)
    ensures var t := SweepNext(s, l);
            && t.accept == s.accept && t.arrived == s.arrived && t.connCounter == s.connCounter
            && t.connections == s.connections && t.running == s.running && t.pool == s.pool
  {
  }

  lemma HandlerCountsFor<T>(s: Server<T>, k: nat, l: HandlerLabel, sock: nat, keys: set<nat>)
    requires CountsFor(s, sock, keys)
    ensures CountsFor(HandlerNext(s, k, l), sock, keys)
  {
    HandlerLeaves(s, k, l);
    hide HandlerNext;
  }

  lemma SweepCountsFor<T>(s: Server<T>, l: SweepLabel, sock: nat, keys: set<nat>)
    requires CountsFor(s, sock, keys)
    ensures CountsFor(SweepNext(s, l), sock, keys)
  {
    SweepLeaves(s, l);
    hide SweepNext;
  }

  lemma ControlCountsFor<T>(s: Server<T>, c: ControlLabel, sock: nat, keys: set<nat>)
    requires CountsFor(s, sock, keys)
    ensures CountsFor(ControlNext(s, c), sock, keys)
  {
  }

  lemma {:induction false} RunCountsFor<T>(s: Server<T>, ls: seq<ServerLabel<T>>, sock: nat, keys: set<nat>)
    requires CountsFor(s, sock, keys)
    ensures CountsFor(Run(s, ls), sock, keys)
    decreases |ls|
  {
    hide CountsFor, AcceptNext, HandlerNext, SweepNext, ControlNext;
    if ls != [] {
      match ls[0] {
        case Accepting(a) => AcceptCountsFor(s, a, sock, keys);
        case Handling(k, h) => HandlerCountsFor(s, k, h, sock, keys);
        case Sweeping(w) => SweepCountsFor(s, w, sock, keys);
        case Controlling(c) => ControlCountsFor(s, c, sock, keys);
      }
      RunCountsFor(Next(s, ls[0]), ls[1..], sock, keys);
    }
  }

  /** The traversal is not a snapshot, yet it decides between two: a socket is admitted if fewer than maxConns
      connections were listed when its count began, and refused and closed if that many are listed when it
      ends, whatever runs in between. */
  lemma CountDecides<T>(maxConns: nat, ls: seq<ServerLabel<T>>, more: seq<ServerLabel<T>>)
    requires var s := Run(Init<T>(maxConns), ls);
             && s.accept.Accepted?
             && var u := Run(AcceptNext(s, BeginCount), more);
                u.accept.Counting? && u.accept.sock == s.accept.sock && AcceptEnabled(u, EndCount)
    ensures var s := Run(Init<T>(maxConns), ls);
            var u := Run(AcceptNext(s, BeginCount), more);
            var t := AcceptNext(u, EndCount);
            && (|s.connections| < maxConns ==> t.accept == UnderCap(s.accept.sock) && t.closedSocks == u.closedSocks)
            && (|u.connections| >= maxConns ==> t.accept == Head && s.accept.sock in t.closedSocks)
  {
    var s := Run(Init<T>(maxConns), ls);
    var b := AcceptNext(s, BeginCount);
    var u := Run(b, more);
    RunMaxConns(Init<T>(maxConns), ls);
    NextMaxConns(s, Accepting(BeginCount));
    RunMaxConns(b, more);
    assert s.accept.sock in s.arrived by { Reachable(maxConns, ls); }
    EntrySteps(s);
    assert CountsFor(b, s.accept.sock, s.connections.Keys);
    RunCountsFor(b, more, s.accept.sock, s.connections.Keys);
    hide Run;
    assert u.connections.Keys <= s.connections.Keys && u.accept.visited <= s.connections.Keys;
    assert u.connections.Keys * u.accept.start == u.connections.Keys;
    CardinalityMonotonic(u.accept.visited, s.connections.Keys);
    CardinalityMonotonic(u.connections.Keys, u.accept.visited);
    assert |s.connections.Keys| == |s.connections| && |u.connections.Keys| == |u.connections|;
  }

  // ---------------------------------------------------------------- after a Stop

  predicate Starts<T>(l: ServerLabel<T>) {
    l.Controlling? && l.c.Start?
  }

  /** The connections taken on and the one that may still follow. */
  function TakenOn<T>(s: Server<T>): nat {
    s.connCounter + if s.accept.Blocked? || s.accept.HasSock() then 1 else 0
  }

  lemma AcceptTakesOn<T>(s: Server<T>, l: AcceptLabel<T>)
    requires !s.running
    ensures var t := AcceptNext(s, l); !t.running && TakenOn(t) <= TakenOn(s)
  {
  }

  lemma ControlTakesOn<T>(s: Server<T>, c: ControlLabel)
    requires !s.running && !c.Start?
    ensures var t := ControlNext(s, c); !t.running && t.connCounter == s.connCounter && t.accept == s.accept
  {
  }

  lemma NextTakesOn<T>(s: Server<T>, l: ServerLabel<T>)
    requires !s.running && !Starts(l)
    ensures var t := Next(s, l); !t.running && TakenOn(t) <= TakenOn(s)
  {
    hide AcceptNext, HandlerNext, SweepNext, ControlNext;
    match l
    case Accepting(a) => AcceptTakesOn(s, a);
    case Handling(k, h) => HandlerLeaves(s, k, h);
    case Sweeping(w) => SweepLeaves(s, w);
    case Controlling(c) => ControlTakesOn(s, c);
  }

  /** Once `running` has ended, at most one more connection is taken on before the next Start, and only if the
      accept loop was inside Accept or already held its socket. */
  lemma AtMostOneLate<T>(s: Server<T>, ls: seq<ServerLabel<T>>)
    requires !s.running && forall l :: l in ls ==> !Starts(l)
    ensures var t := Run(s, ls);
            && t.connCounter <= s.connCounter + 1
            && (t.connCounter > s.connCounter ==> s.accept.Blocked? || s.accept.HasSock())
  {
    RunTakesOn(s, ls);
  }

  lemma {:induction false} RunTakesOn<T>(s: Server<T>, ls: seq<ServerLabel<T>>)
    requires !s.running && forall l :: l in ls ==> !Starts(l)
    ensures TakenOn(Run(s, ls)) <= TakenOn(s)
    decreases |ls|
  {
    hide TakenOn, Next;
    if ls != [] {
      NextTakesOn(s, ls[0]);
      RunTakesOn(Next(s, ls[0]), ls[1..]);
    }
  }

  // ---------------------------------------------------------------- waiting for an object

  predicate QueuesWhenFull<T>(s: Server<T>) {
    s.accept.Queueing? ==> s.pool.created >= s.pool.maxSize
  }

  lemma AcceptQueues<T>(s: Server<T>, l: AcceptLabel<T>)
    requires QueuesWhenFull(s)
    ensures var t := AcceptNext(s, l); QueuesWhenFull(t) && t.pool.maxSize == s.pool.maxSize
  {
  }

  lemma ControlQueues<T>(s: Server<T>, l: ControlLabel)
    requires QueuesWhenFull(s)
    ensures var t := ControlNext(s, l); QueuesWhenFull(t) && t.pool == s.pool
  {
  }

  lemma NextQueues<T>(s: Server<T>, l: ServerLabel<T>)
    requires QueuesWhenFull(s)
    ensures var t := Next(s, l); QueuesWhenFull(t) && t.pool.maxSize == s.pool.maxSize
  {
    hide AcceptNext, HandlerNext, SweepNext, ControlNext;
    match l
    case Accepting(a) => AcceptQueues(s, a);
    case Handling(k, h) => HandlerLeaves(s, k, h);
    case Sweeping(w) => SweepLeaves(s, w);
    case Controlling(c) => ControlQueues(s, c);
  }

  lemma {:induction false} RunQueues<T>(s: Server<T>, ls: seq<ServerLabel<T>>)
    requires QueuesWhenFull(s)
    ensures var t := Run(s, ls); QueuesWhenFull(t) && t.pool.maxSize == s.pool.maxSize
    decreases |ls|
  {
    hide QueuesWhenFull, Next;
    if ls != [] {
      NextQueues(s, ls[0]);
      RunQueues(Next(s, ls[0]), ls[1..]);
    }
  }

  /** In every run: the accept loop waits for an object to be put back, or makes one that is not counted, only
      when maxConns objects have been made. */
  lemma WaitsWhenFull<T>(maxConns: nat, ls: seq<ServerLabel<T>>)
    ensures var s := Run(Init<T>(maxConns), ls); s.accept.Queueing? ==> s.pool.created >= maxConns
  {
    RunQueues(Init<T>(maxConns), ls);
  }
}
