/** The TCP server as a step system: one accept loop, any number of connection handlers, the heartbeat
    sweeper and Start/Stop, interleaved at every access to what they share (the connection map, the
    pool of `Connection` objects, `running`, the WaitGroup). An object loaded from the map may be another
    connection's by the time it is used.

    `T` is the type of object identities: a `Connection` reference in the class built on this system.
    A label whose guard fails leaves the state unchanged, so every sequence of labels is a run. */
module TcpServer {
  import opened Wrappers
  import opened ObjectPool

  /** Idle time, in seconds, after which the sweeper closes a connection. */
  const IDLE_LIMIT := 60

  /** The fields of a `Connection`; `sock` names the underlying net.Conn. */
  datatype Record = Record(id: nat, userId: nat, sessionId: string, lastActivity: int, sock: nat)

  const BLANK := Record(0, 0, "", 0, 0)

  function Reset(r: Record): Record {
    Record(r.id, 0, "", 0, r.sock)
  }

  /** The accept loop's program counter, with the locals that are live there. */
  datatype AcceptPhase<T> =
    | Dead
    | Head
    | Blocked
    | Accepted(sock: nat)
    | Counting(sock: nat, start: set<nat>, visited: set<nat>)
    | UnderCap(sock: nat)
    | Getting(sock: nat, id: nat)
    | Missing(sock: nat, id: nat)
    | Queueing(sock: nat, id: nat)
    | Holding(sock: nat, id: nat, obj: T)
    | Bound(id: nat, obj: T)
    | Stored(id: nat, obj: T)
    | Added(id: nat, obj: T)
  {
    /** A socket that has no id yet. */
    predicate HasSock() { Accepted? || Counting? || UnderCap? }
    predicate Unbound() { Getting? || Missing? || Queueing? || Holding? }
    predicate HasId() { Getting? || Missing? || Queueing? || HasObj() }
    predicate HasObj() { Holding? || Bound? || Stored? || Added? }
    predicate InMap() { Stored? || Added? }
  }

  /** A handler serves, then runs its deferred clean-up: close, delete from the map, put (count, reset,
      offer), done. */
  datatype HandlerPhase = Serving | Closed | Deleted | Counted | Cleared | Returned
  datatype Handler<T> = Handler(obj: T, phase: HandlerPhase)

  /** `Looking` and `Loaded` hold an object found under key k. */
  datatype SweepPhase<T> =
    | Off
    | Idle
    | Scanning(now: int, expired: seq<nat>)
    | Looking(now: int, expired: seq<nat>, k: nat, obj: T)
    | Kicking(expired: seq<nat>)
    | Loaded(k: nat, obj: T, expired: seq<nat>)

  /** A socket closed by the sweeper for id k, and the id that the object then carried. */
  datatype Kicked = Kicked(id: nat, sock: nat, occupant: nat)

  datatype StopPhase<T> = NoStop | ClosingAll | ClosingOne(obj: T) | WaitingForAll

  /** The last six fields are history: the sockets accepted, the one accepted as each id, the user each id
      last logged in as, the ids whose object has been handed to Put (in order), the sockets closed, and
      those closed by the sweeper. */
  datatype Server<T> = Server(
    maxConns: nat,
    running: bool,
    cancelled: bool,
    connCounter: nat,
    wg: nat,
    connections: map<nat, T>,
    heap: map<T, Record>,
    pool: Pool<T>,
    accept: AcceptPhase<T>,
    handlers: map<nat, Handler<T>>,
    sweep: SweepPhase<T>,
    stop: StopPhase<T>,
    arrived: set<nat>,
    sockOf: map<nat, nat>,
    loginOf: map<nat, nat>,
    putLog: seq<nat>,
    closedSocks: set<nat>,
    kicked: seq<Kicked>)

  function Init<T>(maxConns: nat): Server<T> {
    Server(maxConns, false, false, 0, 0, map[], map[], NewPool(maxConns), Dead, map[], Off, NoStop,
          {}, map[], map[], [], {}, [])
  }

  // ---------------------------------------------------------------- the accept loop

  datatype AcceptLabel<T> =
    | Enter | Leave | Fail | Arrive(sock: nat) | Limit
    | BeginCount | Visit(k: nat) | EndCount
    | Number | TakeIdle | Miss | Create(obj: T) | Refuse | Expire(obj: T)
    | Bind(now: int) | Store | Add | Spawn

  predicate AcceptEnabled<T(==)>(s: Server<T>, l: AcceptLabel<T>) {
    match l
    case Enter => s.accept.Head? && s.running
    case Leave => s.accept.Head? && !s.running && s.wg > 0
    case Fail => s.accept.Blocked?
    // Every Accept returns a net.Conn of its own.
    case Arrive(sock) => s.accept.Blocked? && sock !in s.arrived
    case Limit => s.accept.Accepted?
    case BeginCount => s.accept.Accepted?
    // A traversal sees each key at most once; a key deleted meanwhile may or may not be seen.
    case Visit(k) => s.accept.Counting? && k in s.accept.start && k !in s.accept.visited
    case EndCount => s.accept.Counting? && s.connections.Keys * s.accept.start <= s.accept.visited
    case Number => s.accept.UnderCap?
    case TakeIdle => (s.accept.Getting? || s.accept.Queueing?) && s.pool.free != []
    case Miss => s.accept.Getting? && s.pool.free == []
    case Create(obj) => s.accept.Missing? && s.pool.created < s.pool.maxSize && obj !in s.heap
    case Refuse => s.accept.Missing? && s.pool.created >= s.pool.maxSize
    case Expire(obj) => s.accept.Queueing? && obj !in s.heap
    case Bind(_) => s.accept.Holding?
    case Store => s.accept.Bound?
    case Add => s.accept.Stored?
    case Spawn => s.accept.Added?
  }

  function Drawn<T(==)>(s: Server<T>): Server<T>
    requires s.accept.UnderCap?
  {
    var id := s.connCounter + 1;
    s.(accept := Getting(s.accept.sock, id), connCounter := id,
       pool := s.pool.(gotten := s.pool.gotten + 1), sockOf := s.sockOf[id := s.accept.sock])
  }

  /** Reset, and the new id, socket and time. */
  function BoundTo<T(==)>(s: Server<T>, now: int): Server<T>
    requires s.accept.Holding?
  {
    s.(accept := Bound(s.accept.id, s.accept.obj),
       heap := s.heap[s.accept.obj := Record(s.accept.id, 0, "", now, s.accept.sock)])
  }

  function InMap<T(==)>(s: Server<T>): Server<T>
    requires s.accept.Bound?
  {
    s.(accept := Stored(s.accept.id, s.accept.obj), connections := s.connections[s.accept.id := s.accept.obj])
  }

  function Awaited<T(==)>(s: Server<T>): Server<T>
    requires s.accept.Stored?
  {
    s.(accept := Added(s.accept.id, s.accept.obj), wg := s.wg + 1)
  }

  function Spawned<T(==)>(s: Server<T>): Server<T>
    requires s.accept.Added?
  {
    s.(accept := Head, handlers := s.handlers[s.accept.id := Handler(s.accept.obj, Serving)])
  }

  function AcceptNext<T(==)>(s: Server<T>, l: AcceptLabel<T>): Server<T> {
    if !AcceptEnabled(s, l) then s else
    match l
    case Enter => s.(accept := Blocked)
    case Leave => s.(accept := Dead, wg := s.wg - 1)
    case Fail => s.(accept := Head)
    case Arrive(sock) => s.(accept := Accepted(sock), arrived := s.arrived + {sock})
    case Limit => s.(accept := Head, closedSocks := s.closedSocks + {s.accept.sock})
    case BeginCount => s.(accept := Counting(s.accept.sock, s.connections.Keys, {}))
    case Visit(k) => s.(accept := Counting(s.accept.sock, s.accept.start, s.accept.visited + {k}))
    case EndCount =>
      var full := |s.accept.visited| >= s.maxConns;
      s.(accept := if full then Head else UnderCap(s.accept.sock),
         closedSocks := s.closedSocks + (if full then {s.accept.sock} else {}))
    case Number => Drawn(s)
    case TakeIdle =>
      var (obj, pool) := Take(s.pool);
      s.(accept := Holding(s.accept.sock, s.accept.id, obj), pool := pool)
    case Miss => s.(accept := Missing(s.accept.sock, s.accept.id))
    case Create(obj) =>
      s.(accept := Holding(s.accept.sock, s.accept.id, obj), heap := s.heap[obj := BLANK],
         pool := s.pool.(created := s.pool.created + 1))
    case Refuse => s.(accept := Queueing(s.accept.sock, s.accept.id))
    case Expire(obj) =>
      s.(accept := Holding(s.accept.sock, s.accept.id, obj), heap := s.heap[obj := BLANK])
    case Bind(now) => BoundTo(s, now)
    case Store => InMap(s)
    case Add => Awaited(s)
    case Spawn => Spawned(s)
  }

  // ---------------------------------------------------------------- the handler of connection k

  datatype HandlerLabel =
    | Activity(now: int) | Login(user: nat) | Logout
    | Close | Delete | PutCount | PutReset | PutOffer | Done

  /** The handler of k has an object. */
  predicate Live<T(==)>(s: Server<T>, k: nat) {
    k in s.handlers && s.handlers[k].obj in s.heap
  }

  predicate HandlerEnabled<T(==)>(s: Server<T>, k: nat, l: HandlerLabel) {
    (if l.Done? then k in s.handlers else Live(s, k)) &&
    match l
    case Activity(_) => s.handlers[k].phase == Serving
    case Login(_) => s.handlers[k].phase == Serving
    case Logout => s.handlers[k].phase == Serving
    case Close => s.handlers[k].phase == Serving
    case Delete => s.handlers[k].phase == Closed
    case PutCount => s.handlers[k].phase == Deleted
    case PutReset => s.handlers[k].phase == Counted
    case PutOffer => s.handlers[k].phase == Cleared
    case Done => s.handlers[k].phase == Returned && s.wg > 0
  }

  function Stamped<T(==)>(s: Server<T>, k: nat, now: int): Server<T>
    requires Live(s, k)
  {
    var obj := s.handlers[k].obj;
    s.(heap := s.heap[obj := s.heap[obj].(lastActivity := now)])
  }

  function LoggedIn<T(==)>(s: Server<T>, k: nat, user: nat): Server<T>
    requires Live(s, k)
  {
    var obj := s.handlers[k].obj;
    s.(heap := s.heap[obj := s.heap[obj].(userId := user)], loginOf := s.loginOf[k := user])
  }

  function Hung<T(==)>(s: Server<T>, k: nat): Server<T>
    requires Live(s, k)
  {
    s.(closedSocks := s.closedSocks + {s.heap[s.handlers[k].obj].sock})
  }

  function Shut<T(==)>(s: Server<T>, k: nat): Server<T>
    requires Live(s, k)
  {
    var obj := s.handlers[k].obj;
    s.(closedSocks := s.closedSocks + {s.heap[obj].sock}, handlers := s.handlers[k := Handler(obj, Closed)])
  }

  function Unlisted<T(==)>(s: Server<T>, k: nat): Server<T>
    requires Live(s, k)
  {
    var obj := s.handlers[k].obj;
    s.(connections := s.connections - {s.heap[obj].id}, handlers := s.handlers[k := Handler(obj, Deleted)])
  }

  function PutCounted<T(==)>(s: Server<T>, k: nat): Server<T>
    requires Live(s, k)
  {
    s.(pool := s.pool.(put := s.pool.put + 1), putLog := s.putLog + [k],
       handlers := s.handlers[k := Handler(s.handlers[k].obj, Counted)])
  }

  function PutCleared<T(==)>(s: Server<T>, k: nat): Server<T>
    requires Live(s, k)
  {
    var obj := s.handlers[k].obj;
    s.(heap := s.heap[obj := Reset(s.heap[obj])], handlers := s.handlers[k := Handler(obj, Cleared)])
  }

  function PutOffered<T(==)>(s: Server<T>, k: nat): Server<T>
    requires Live(s, k)
  {
    var obj := s.handlers[k].obj;
    s.(pool := Offer(s.pool, obj), handlers := s.handlers[k := Handler(obj, Returned)])
  }

  function Finished<T(==)>(s: Server<T>, k: nat): Server<T>
    requires k in s.handlers && s.wg > 0
  {
    s.(wg := s.wg - 1, handlers := s.handlers - {k})
  }

  function HandlerNext<T(==)>(s: Server<T>, k: nat, l: HandlerLabel): Server<T> {
    if !HandlerEnabled(s, k, l) then s else
    match l
    case Activity(now) => Stamped(s, k, now)
    case Login(user) => LoggedIn(s, k, user)
    case Logout => Hung(s, k)
    case Close => Shut(s, k)
    case Delete => Unlisted(s, k)
    case PutCount => PutCounted(s, k)
    case PutReset => PutCleared(s, k)
    case PutOffer => PutOffered(s, k)
    case Done => Finished(s, k)
  }

  // ---------------------------------------------------------------- the heartbeat sweeper

  datatype SweepLabel = Tick(now: int) | Look(k: nat) | Inspect | EndScan | KickLoad | KickClose | EndKick | Exit

  predicate SweepEnabled<T(==)>(s: Server<T>, l: SweepLabel) {
    match l
    case Tick(_) => s.sweep.Idle?
    case Look(k) => s.sweep.Scanning? && k in s.connections
    case Inspect => s.sweep.Looking? && s.sweep.obj in s.heap
    case EndScan => s.sweep.Scanning?
    case KickLoad => s.sweep.Kicking? && s.sweep.expired != []
    case KickClose => s.sweep.Loaded? && s.sweep.obj in s.heap
    case EndKick => s.sweep.Kicking? && s.sweep.expired == []
    case Exit => s.sweep.Idle? && s.cancelled && s.wg > 0
  }

  function SweepNext<T(==)>(s: Server<T>, l: SweepLabel): Server<T> {
    if !SweepEnabled(s, l) then s else
    match l
    case Tick(now) => s.(sweep := Scanning(now, []))
    case Look(k) => s.(sweep := Looking(s.sweep.now, s.sweep.expired, k, s.connections[k]))
    case Inspect =>
      var idle := s.sweep.now - s.heap[s.sweep.obj].lastActivity > IDLE_LIMIT;
      s.(sweep := Scanning(s.sweep.now, s.sweep.expired + (if idle then [s.sweep.k] else [])))
    case EndScan => s.(sweep := Kicking(s.sweep.expired))
    case KickLoad =>
      var k, rest := s.sweep.expired[0], s.sweep.expired[1..];
      s.(sweep := if k in s.connections then Loaded(k, s.connections[k], rest) else Kicking(rest))
    case KickClose =>
      var r := s.heap[s.sweep.obj];
      s.(sweep := Kicking(s.sweep.expired), closedSocks := s.closedSocks + {r.sock},
         kicked := s.kicked + [Kicked(s.sweep.k, r.sock, r.id)])
    case EndKick => s.(sweep := Idle)
    case Exit => s.(sweep := Off, wg := s.wg - 1)
  }

  // ---------------------------------------------------------------- Start and Stop

  datatype ControlLabel = Start | Stop | StopLoad(k: nat) | StopClose | StopWait | StopReturn

  predicate ControlEnabled<T(==)>(s: Server<T>, l: ControlLabel) {
    match l
    // A restricted Start: the code's fails only until Stop has closed the listener. If it succeeds while
    // that Stop still waits, the old accept loop may find `running` true again; such runs are left out.
    case Start => !s.running && s.stop.NoStop?
    case Stop => s.running && s.stop.NoStop?
    case StopLoad(k) => s.stop.ClosingAll? && k in s.connections
    case StopClose => s.stop.ClosingOne? && s.stop.obj in s.heap
    case StopWait => s.stop.ClosingAll?
    case StopReturn => s.stop.WaitingForAll? && s.wg == 0
  }

  function ControlNext<T(==)>(s: Server<T>, l: ControlLabel): Server<T> {
    if !ControlEnabled(s, l) then s else
    match l
    case Start => s.(running := true, wg := s.wg + 2, accept := Head, sweep := Idle)
    case Stop => s.(running := false, cancelled := true, stop := ClosingAll)
    case StopLoad(k) => s.(stop := ClosingOne(s.connections[k]))
    case StopClose => s.(stop := ClosingAll, closedSocks := s.closedSocks + {s.heap[s.stop.obj].sock})
    case StopWait => s.(stop := WaitingForAll)
    case StopReturn => s.(stop := NoStop)
  }

  // ---------------------------------------------------------------- runs

  datatype ServerLabel<T> =
    | Accepting(a: AcceptLabel<T>)
    | Handling(k: nat, h: HandlerLabel)
    | Sweeping(w: SweepLabel)
    | Controlling(c: ControlLabel)

  function Next<T(==)>(s: Server<T>, l: ServerLabel<T>): Server<T> {
    match l
    case Accepting(a) => AcceptNext(s, a)
    case Handling(k, h) => HandlerNext(s, k, h)
    case Sweeping(w) => SweepNext(s, w)
    case Controlling(c) => ControlNext(s, c)
  }

  function Run<T(==)>(s: Server<T>, ls: seq<ServerLabel<T>>): Server<T>
    decreases |ls|
  {
    if ls == [] then s else Run(Next(s, ls[0]), ls[1..])
  }

  lemma {:induction false} RunSnoc<T>(s: Server<T>, ls: seq<ServerLabel<T>>, l: ServerLabel<T>)
    ensures Run(s, ls + [l]) == Next(Run(s, ls), l)
    decreases |ls|
  {
    hide Next;
    if ls == [] {
      assert Run(Next(s, l), []) == Next(s, l);
    } else {
      assert (ls + [l])[1..] == ls[1..] + [l];
      RunSnoc(Next(s, ls[0]), ls[1..], l);
    }
  }

  /** Some run leads from s to t. */
  ghost predicate Leads<T(!new)>(s: Server<T>, t: Server<T>) {
    exists ls: seq<ServerLabel<T>> :: Run(s, ls) == t
  }

  lemma Follow<T(!new)>(s: Server<T>, t: Server<T>, l: ServerLabel<T>)
    requires Leads(s, t)
    ensures Leads(s, Next(t, l))
  {
    var ls: seq<ServerLabel<T>> :| Run(s, ls) == t;
    hide Next, Run;
    RunSnoc(s, ls, l);
    assert Run(s, ls + [l]) == Next(t, l);
  }

  // ---------------------------------------------------------------- enabled steps, by name

  lemma EntrySteps<T>(s: Server<T>)
    ensures forall sock :: s.accept.Blocked? && sock !in s.arrived ==>
              AcceptNext(s, Arrive(sock)) == s.(accept := Accepted(sock), arrived := s.arrived + {sock})
    ensures s.accept.Accepted? ==>
              && AcceptNext(s, Limit) == s.(accept := Head, closedSocks := s.closedSocks + {s.accept.sock})
              && AcceptNext(s, BeginCount) == s.(accept := Counting(s.accept.sock, s.connections.Keys, {}))
    ensures s.accept.UnderCap? ==> AcceptNext(s, Number) == Drawn(s)
  {
  }

  lemma PoolSteps<T>(s: Server<T>)
    ensures s.accept.Getting? && s.pool.free == [] ==>
              AcceptNext(s, Miss) == s.(accept := Missing(s.accept.sock, s.accept.id))
    ensures s.accept.Missing? && s.pool.created >= s.pool.maxSize ==>
              AcceptNext(s, Refuse) == s.(accept := Queueing(s.accept.sock, s.accept.id))
  {
  }

  lemma MakeSteps<T>(s: Server<T>, obj: T)
    requires obj !in s.heap
    ensures s.accept.Missing? && s.pool.created < s.pool.maxSize ==>
              AcceptNext(s, Create(obj)) == s.(accept := Holding(s.accept.sock, s.accept.id, obj),
                heap := s.heap[obj := BLANK], pool := s.pool.(created := s.pool.created + 1))
    ensures s.accept.Queueing? ==>
              AcceptNext(s, Expire(obj)) ==
                s.(accept := Holding(s.accept.sock, s.accept.id, obj), heap := s.heap[obj := BLANK])
  {
  }

  lemma LateSteps<T>(s: Server<T>)
    ensures s.accept.Holding? ==> forall now :: AcceptNext(s, Bind(now)) == BoundTo(s, now)
    ensures s.accept.Bound? ==> AcceptNext(s, Store) == InMap(s)
    ensures s.accept.Stored? ==> AcceptNext(s, Add) == Awaited(s)
    ensures s.accept.Added? ==> AcceptNext(s, Spawn) == Spawned(s)
  {
  }

  lemma HandlerSteps<T>(s: Server<T>, k: nat)
    requires Live(s, k)
    ensures s.handlers[k].phase == Serving ==> HandlerNext(s, k, Close) == Shut(s, k)
    ensures s.handlers[k].phase == Closed ==> HandlerNext(s, k, Delete) == Unlisted(s, k)
    ensures s.handlers[k].phase == Deleted ==> HandlerNext(s, k, PutCount) == PutCounted(s, k)
    ensures s.handlers[k].phase == Counted ==> HandlerNext(s, k, PutReset) == PutCleared(s, k)
    ensures s.handlers[k].phase == Cleared ==> HandlerNext(s, k, HandlerLabel.PutOffer) == PutOffered(s, k)
  {
  }

  lemma KickSteps<T>(s: Server<T>)
    ensures s.sweep.Kicking? && s.sweep.expired != [] && s.sweep.expired[0] in s.connections ==>
              var k := s.sweep.expired[0];
              SweepNext(s, KickLoad) == s.(sweep := Loaded(k, s.connections[k], s.sweep.expired[1..]))
    ensures s.sweep.Loaded? && s.sweep.obj in s.heap ==>
              var r := s.heap[s.sweep.obj];
              SweepNext(s, KickClose) == s.(sweep := Kicking(s.sweep.expired), closedSocks := s.closedSocks + {r.sock},
                                            kicked := s.kicked + [Kicked(s.sweep.k, r.sock, r.id)])
  {
  }

  lemma ScanSteps<T>(s: Server<T>)
    ensures s.sweep.Idle? ==> forall now :: SweepNext(s, Tick(now)) == s.(sweep := Scanning(now, []))
    ensures s.sweep.Scanning? ==> SweepNext(s, EndScan) == s.(sweep := Kicking(s.sweep.expired))
    ensures s.sweep == Kicking([]) ==> SweepNext(s, EndKick) == s.(sweep := Idle)
  {
  }

  lemma StopSteps<T>(s: Server<T>)
    ensures s.running && s.stop.NoStop? ==>
              ControlNext(s, Stop) == s.(running := false, cancelled := true, stop := ClosingAll)
    ensures s.stop.ClosingAll? ==> ControlNext(s, StopWait) == s.(stop := WaitingForAll)
    ensures s.stop.ClosingOne? && s.stop.obj in s.heap ==>
              ControlNext(s, StopClose)
              == s.(stop := ClosingAll, closedSocks := s.closedSocks + {s.heap[s.stop.obj].sock})
  {
  }
}
