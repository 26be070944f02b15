/** The generic object pool: a bounded free list shared by concurrent `Get` and `Put` calls.

    `Pool` holds the fields of the pool as a value. `State` adds the calls in flight, each at the
    point it has reached between two atomic accesses, and the history that the accounting speaks of.
    A label whose guard fails leaves the state unchanged, so every sequence of labels is a run. */
module ObjectPool {
  import opened Wrappers

  datatype Pool<T> = Pool(free: seq<T>, maxSize: nat, created: nat, gotten: nat, put: nat)

  function NewPool<T>(maxSize: nat): Pool<T> {
    Pool([], maxSize, 0, 0, 0)
  }

  /** Receive from the free-list channel. */
  function Take<T>(p: Pool<T>): (T, Pool<T>)
    requires p.free != []
  {
    (p.free[0], p.(free := p.free[1..]))
  }

  /** The non-blocking send of `Put`: a full channel drops the object. */
  function Offer<T>(p: Pool<T>, obj: T): Pool<T> {
    if |p.free| < p.maxSize then p.(free := p.free + [obj]) else p
  }

  // ---------------------------------------------------------------- concurrent calls

  /** Where a `Get` is: counted in `gotten`; past the first select with nothing idle; past the test
      `created < maxSize` but not yet counted in `created`; or in the 100 ms wait. */
  datatype GetPhase = Arrived | Missed | Admitted | Waiting

  datatype State<T> = State(
    pool: Pool<T>,
    gets: map<nat, GetPhase>,
    puts: map<nat, T>,
    hits: seq<T>,
    queued: seq<T>,
    counted: nat,
    timeouts: nat,
    discarded: nat)

  datatype Label<T> =
    | GetBegin(g: nat)
    | GetTake(g: nat)
    | GetMiss(g: nat)
    | GetAdmit(g: nat)
    | GetRefuse(g: nat)
    | GetCreate(g: nat)
    | GetTimeout(g: nat)
    | PutBegin(p: nat, obj: T)
    | PutOffer(p: nat)
    | PutHandoff(p: nat, g: nat)

  function Init<T>(maxSize: nat): State<T> {
    State(NewPool(maxSize), map[], map[], [], [], 0, 0, 0)
  }

  predicate Enabled<T(==)>(s: State<T>, l: Label<T>) {
    match l
    case GetBegin(g) => g !in s.gets
    case GetTake(g) => g in s.gets && (s.gets[g] == Arrived || s.gets[g] == Waiting) && s.pool.free != []
    case GetMiss(g) => g in s.gets && s.gets[g] == Arrived && s.pool.free == []
    case GetAdmit(g) => g in s.gets && s.gets[g] == Missed && s.pool.created < s.pool.maxSize
    case GetRefuse(g) => g in s.gets && s.gets[g] == Missed && s.pool.created >= s.pool.maxSize
    case GetCreate(g) => g in s.gets && s.gets[g] == Admitted
    case GetTimeout(g) => g in s.gets && s.gets[g] == Waiting
    case PutBegin(p, _) => p !in s.puts
    case PutOffer(p) => p in s.puts
    // An unbuffered channel holds nothing, but a send meets a receiver that is already waiting.
    case PutHandoff(p, g) => s.pool.maxSize == 0 && p in s.puts && g in s.gets && s.gets[g] == Waiting
  }

  function Next<T(==)>(s: State<T>, l: Label<T>): State<T> {
    if !Enabled(s, l) then s else
    match l
    case GetBegin(g) => s.(pool := s.pool.(gotten := s.pool.gotten + 1), gets := s.gets[g := Arrived])
    case GetTake(g) =>
      var (obj, pool) := Take(s.pool);
      s.(pool := pool, gets := s.gets - {g}, hits := s.hits + [obj])
    case GetMiss(g) => s.(gets := s.gets[g := Missed])
    case GetAdmit(g) => s.(gets := s.gets[g := Admitted])
    case GetRefuse(g) => s.(gets := s.gets[g := Waiting])
    case GetCreate(g) =>
      s.(pool := s.pool.(created := s.pool.created + 1), gets := s.gets - {g}, counted := s.counted + 1)
    case GetTimeout(g) => s.(gets := s.gets - {g}, timeouts := s.timeouts + 1)
    case PutBegin(p, obj) => s.(pool := s.pool.(put := s.pool.put + 1), puts := s.puts[p := obj])
    case PutOffer(p) =>
      var obj := s.puts[p];
      var s' := s.(pool := Offer(s.pool, obj), puts := s.puts - {p});
      if |s.pool.free| < s.pool.maxSize then s'.(queued := s.queued + [obj])
      else s'.(discarded := s.discarded + 1)
    case PutHandoff(p, g) =>
      var obj := s.puts[p];
      s.(puts := s.puts - {p}, gets := s.gets - {g}, queued := s.queued + [obj], hits := s.hits + [obj])
  }

  function Run<T(==)>(s: State<T>, ls: seq<Label<T>>): State<T>
    decreases |ls|
  {
    if ls == [] then s else Run(Next(s, ls[0]), ls[1..])
  }

  // ---------------------------------------------------------------- accounting

  lemma CountRemoved<K, V>(m: map<K, V>, k: K)
    requires k in m
    ensures |m - {k}| == |m| - 1
  {
    assert (m - {k}).Keys == m.Keys - {k};
  }

  lemma CountUpdated<K, V>(m: map<K, V>, k: K, v: V)
    requires k in m
    ensures |m[k := v]| == |m|
  {
    assert m[k := v].Keys == m.Keys;
  }

  /** Every `Get` begun is a hit, a counted creation, a timeout creation or still in flight; every
      `Put` begun is queued, discarded or in flight. */
  ghost predicate Balanced<T>(s: State<T>) {
    && s.pool.gotten == |s.hits| + s.counted + s.timeouts + |s.gets|
    && s.pool.put == |s.queued| + s.discarded + |s.puts|
    && s.pool.created == s.counted
  }

  /** The objects handed out from the free list followed by those still in it are the objects queued,
      in order. */
  ghost predicate FirstInFirstOut<T>(s: State<T>) {
    s.hits + s.pool.free == s.queued && |s.pool.free| <= s.pool.maxSize
  }

  lemma GetBalanced<T>(s: State<T>, l: Label<T>)
    requires Balanced(s) && Enabled(s, l) && !l.PutBegin? && !l.PutOffer? && !l.PutHandoff?
    ensures Balanced(Next(s, l))
  {
    if l.GetTake? || l.GetCreate? || l.GetTimeout? {
      CountRemoved(s.gets, l.g);
    } else if !l.GetBegin? {
      CountUpdated(s.gets, l.g, Next(s, l).gets[l.g]);
    }
  }

  lemma PutBalanced<T>(s: State<T>, l: Label<T>)
    requires Balanced(s) && Enabled(s, l) && (l.PutBegin? || l.PutOffer? || l.PutHandoff?)
    ensures Balanced(Next(s, l))
  {
    if l.PutOffer? || l.PutHandoff? {
      CountRemoved(s.puts, l.p);
    }
    if l.PutHandoff? {
      CountRemoved(s.gets, l.g);
    }
  }

  lemma NextBalanced<T>(s: State<T>, l: Label<T>)
    requires Balanced(s)
    ensures Balanced(Next(s, l))
  {
    if Enabled(s, l) {
      if l.PutBegin? || l.PutOffer? || l.PutHandoff? { PutBalanced(s, l); } else { GetBalanced(s, l); }
    }
  }

  lemma NextFirstInFirstOut<T>(s: State<T>, l: Label<T>)
    requires FirstInFirstOut(s)
    ensures FirstInFirstOut(Next(s, l)) && Next(s, l).pool.maxSize == s.pool.maxSize
  {
    if Enabled(s, l) && l.GetTake? {
      assert s.hits + s.pool.free == s.hits + [s.pool.free[0]] + s.pool.free[1..];
    } else if Enabled(s, l) && l.PutOffer? {
      assert s.hits + (s.pool.free + [s.puts[l.p]]) == (s.hits + s.pool.free) + [s.puts[l.p]];
    } else if Enabled(s, l) && l.PutHandoff? {
      assert s.pool.free == [];
    }
  }

  lemma {:induction false} RunAccounted<T>(s: State<T>, ls: seq<Label<T>>)
    requires Balanced(s) && FirstInFirstOut(s)
    ensures Balanced(Run(s, ls)) && FirstInFirstOut(Run(s, ls)) && Run(s, ls).pool.maxSize == s.pool.maxSize
    decreases |ls|
  {
    if ls != [] {
      NextBalanced(s, ls[0]);
      NextFirstInFirstOut(s, ls[0]);
      RunAccounted(Next(s, ls[0]), ls[1..]);
    }
  }

  /** The pool's books balance in every reachable state. With nothing in flight, completed `Get`s
      are exactly hits + counted creations + timeout creations, non-nil `Put`s exactly queued +
      discarded, and the number of idle objects is queued - hits, within the capacity. */
  lemma PoolAccounting<T>(maxSize: nat, ls: seq<Label<T>>)
    ensures var s := Run(Init<T>(maxSize), ls);
            && s.pool.gotten - |s.gets| == |s.hits| + s.counted + s.timeouts
            && s.pool.put - |s.puts| == |s.queued| + s.discarded
            && |s.pool.free| == |s.queued| - |s.hits| <= maxSize
            && s.hits + s.pool.free == s.queued
  {
    RunAccounted(Init<T>(maxSize), ls);
  }

  /** A Get waits, and a creation goes uncounted, only when the limit had been reached. */
  predicate WaitsAtLimit<T(==)>(s: State<T>) {
    (s.timeouts > 0 || exists g :: g in s.gets && s.gets[g] == Waiting) ==> s.pool.created >= s.pool.maxSize
  }

  lemma NextWaits<T>(s: State<T>, l: Label<T>)
    requires WaitsAtLimit(s)
    ensures WaitsAtLimit(Next(s, l))
  {
    var t := Next(s, l);
    if t.timeouts > 0 || exists g :: g in t.gets && t.gets[g] == Waiting {
      if s.timeouts == 0 && !(Enabled(s, l) && (l.GetRefuse? || l.GetTimeout?)) {
        var g :| g in t.gets && t.gets[g] == Waiting;
        assert g in s.gets && s.gets[g] == Waiting;
      }
    }
  }

  lemma {:induction false} RunWaits<T>(s: State<T>, ls: seq<Label<T>>)
    requires WaitsAtLimit(s)
    ensures WaitsAtLimit(Run(s, ls))
    decreases |ls|
  {
    hide Next, WaitsAtLimit;
    if ls != [] {
      NextWaits(s, ls[0]);
      RunWaits(Next(s, ls[0]), ls[1..]);
    }
  }

  /** In every reachable state: if any object was made without being counted, or any Get waits, the counted
      creations have reached the limit. */
  lemma UncountedOnlyAtLimit<T>(maxSize: nat, ls: seq<Label<T>>)
    ensures var s := Run(Init<T>(maxSize), ls);
            && (s.timeouts > 0 ==> s.pool.created >= maxSize)
            && (forall g :: g in s.gets && s.gets[g] == Waiting ==> s.pool.created >= maxSize)
  {
    RunWaits(Init<T>(maxSize), ls);
    RunAccounted(Init<T>(maxSize), ls);
  }

  // ---------------------------------------------------------------- the creation race

  /** The `Get`s between the test of `created` and its increment. */
  function Racing<T>(s: State<T>): set<nat> {
    set g | g in s.gets && s.gets[g] == Admitted
  }

  /** At most `m` calls race in any state of the run. */
  predicate RaceWithin<T(==)>(s: State<T>, ls: seq<Label<T>>, m: nat)
    decreases |ls|
  {
    |Racing(s)| <= m && (ls == [] || RaceWithin(Next(s, ls[0]), ls[1..], m))
  }

  /** Only a Get that passes the test joins the race; only one that creates counts, and it leaves the race. */
  lemma NextRacing<T>(s: State<T>, l: Label<T>)
    requires Enabled(s, l)
    ensures Racing(Next(s, l)) == if l.GetAdmit? then Racing(s) + {l.g}
                                  else if l.GetCreate? then Racing(s) - {l.g} else Racing(s)
  {
    var t := Next(s, l);
    if l.PutBegin? || l.PutOffer? {
      assert t.gets == s.gets;
    }
    forall g ensures g in Racing(t) <==>
      g in (if l.GetAdmit? then Racing(s) + {l.g} else if l.GetCreate? then Racing(s) - {l.g} else Racing(s)) {
    }
  }

  lemma NextCreated<T>(s: State<T>, l: Label<T>)
    ensures var t := Next(s, l);
            && t.pool.maxSize == s.pool.maxSize
            && t.pool.created == s.pool.created + if Enabled(s, l) && l.GetCreate? then 1 else 0
  {
  }

  lemma NextRace<T>(s: State<T>, l: Label<T>, m: nat)
    requires m >= 1 && |Racing(s)| <= m && |Racing(Next(s, l))| <= m
    requires s.pool.created + |Racing(s)| <= s.pool.maxSize + m - 1
    ensures Next(s, l).pool.created + |Racing(Next(s, l))| <= s.pool.maxSize + m - 1
    ensures Next(s, l).pool.maxSize == s.pool.maxSize
  {
    NextCreated(s, l);
    if Enabled(s, l) {
      NextRacing(s, l);
      assert l.GetCreate? ==> l.g in Racing(s);
      hide Next, Racing;
    }
  }

  lemma {:induction false} RunRace<T>(s: State<T>, ls: seq<Label<T>>, m: nat)
    requires m >= 1 && RaceWithin(s, ls, m)
    requires s.pool.created + |Racing(s)| <= s.pool.maxSize + m - 1
    ensures Run(s, ls).pool.created <= s.pool.maxSize + m - 1
    decreases |ls|
  {
    if ls != [] {
      assert RaceWithin(Next(s, ls[0]), ls[1..], m);
      NextRace(s, ls[0], m);
      RunRace(Next(s, ls[0]), ls[1..], m);
    }
  }

  /** `created` overshoots the limit by at most the number of racing calls less one; serial calls
      (m = 1) never overshoot it. */
  lemma CreatedBound<T>(maxSize: nat, ls: seq<Label<T>>, m: nat)
    requires m >= 1 && RaceWithin(Init<T>(maxSize), ls, m)
    ensures Run(Init<T>(maxSize), ls).pool.created <= maxSize + m - 1
  {
    assert Racing(Init<T>(maxSize)) == {};
    RunRace(Init<T>(maxSize), ls, m);
  }

  // ---------------------------------------------------------------- the pool object

  /** What one `Get` does when the only interference is at most one `Put`, of `arrival`, while it waits. */
  function GetSteps<T(==)>(s: State<T>, arrival: Option<T>): State<T> {
    var begun := Next(s, GetBegin(0));
    if s.pool.free != [] then Next(begun, GetTake(0)) else
    var missed := Next(begun, GetMiss(0));
    if s.pool.created < s.pool.maxSize then Next(Next(missed, GetAdmit(0)), GetCreate(0)) else
    var waiting := Next(missed, GetRefuse(0));
    match arrival
    case None => Next(waiting, GetTimeout(0))
    case Some(obj) =>
      var begunPut := Next(waiting, PutBegin(0, obj));
      if s.pool.maxSize == 0 then Next(begunPut, PutHandoff(0, 0))
      else Next(Next(begunPut, PutOffer(0)), GetTake(0))
  }

  lemma GetImmediate<T>(s: State<T>, arrival: Option<T>)
    requires s.gets == map[] && s.pool.free != []
    ensures GetSteps(s, arrival) == s.(
      pool := s.pool.(gotten := s.pool.gotten + 1, free := s.pool.free[1..]), hits := s.hits + [s.pool.free[0]])
  {
    assert map[0 := Arrived] - {0} == map[];
  }

  lemma GetCreates<T>(s: State<T>, arrival: Option<T>)
    requires s.gets == map[] && s.pool.free == [] && s.pool.created < s.pool.maxSize
    ensures GetSteps(s, arrival) == s.(
      pool := s.pool.(gotten := s.pool.gotten + 1, created := s.pool.created + 1), counted := s.counted + 1)
  {
    assert map[0 := Arrived][0 := Missed][0 := Admitted] - {0} == map[];
  }

  lemma GetTimesOut<T>(s: State<T>)
    requires s.gets == map[] && s.pool.free == [] && s.pool.created >= s.pool.maxSize
    ensures GetSteps(s, None) == s.(pool := s.pool.(gotten := s.pool.gotten + 1), timeouts := s.timeouts + 1)
  {
    assert map[0 := Arrived][0 := Missed][0 := Waiting] - {0} == map[];
  }

  lemma GetReceives<T>(s: State<T>, obj: T)
    requires s.gets == map[] && s.puts == map[] && s.pool.free == [] && s.pool.created >= s.pool.maxSize
    ensures GetSteps(s, Some(obj)) == s.(
      pool := s.pool.(gotten := s.pool.gotten + 1, put := s.pool.put + 1),
      queued := s.queued + [obj], hits := s.hits + [obj])
  {
    assert map[0 := Arrived][0 := Missed][0 := Waiting] - {0} == map[];
    assert map[0 := obj] - {0} == map[];
  }

  lemma GetStepsSettled<T>(s: State<T>, arrival: Option<T>)
    requires Balanced(s) && FirstInFirstOut(s)
    ensures Balanced(GetSteps(s, arrival)) && FirstInFirstOut(GetSteps(s, arrival))
  {
    hide Next, Balanced, FirstInFirstOut;
    Keeps(s, GetBegin(0));
    var begun := Next(s, GetBegin(0));
    if s.pool.free != [] {
      Keeps(begun, GetTake(0));
    } else {
      Keeps(begun, GetMiss(0));
      var missed := Next(begun, GetMiss(0));
      if s.pool.created < s.pool.maxSize {
        Keeps(missed, GetAdmit(0));
        Keeps(Next(missed, GetAdmit(0)), GetCreate(0));
      } else {
        Keeps(missed, GetRefuse(0));
        WaitSettled(Next(missed, GetRefuse(0)), s.pool.maxSize, arrival);
      }
    }
  }

  lemma WaitSettled<T>(waiting: State<T>, maxSize: nat, arrival: Option<T>)
    requires Balanced(waiting) && FirstInFirstOut(waiting)
    ensures match arrival
            case None => var t := Next(waiting, GetTimeout(0)); Balanced(t) && FirstInFirstOut(t)
            case Some(obj) =>
              var begunPut := Next(waiting, PutBegin(0, obj));
              var t := if maxSize == 0 then Next(begunPut, PutHandoff(0, 0))
                       else Next(Next(begunPut, PutOffer(0)), GetTake(0));
              Balanced(t) && FirstInFirstOut(t)
  {
    hide Next, Balanced, FirstInFirstOut;
    match arrival
    case None => Keeps(waiting, GetTimeout(0));
    case Some(obj) =>
      Keeps(waiting, PutBegin(0, obj));
      var begunPut := Next(waiting, PutBegin(0, obj));
      if maxSize == 0 {
        Keeps(begunPut, PutHandoff(0, 0));
      } else {
        Keeps(begunPut, PutOffer(0));
        Keeps(Next(begunPut, PutOffer(0)), GetTake(0));
      }
  }

  lemma PutSettled<T>(s: State<T>, obj: T)
    requires Balanced(s) && FirstInFirstOut(s)
    ensures var t := Next(Next(s, PutBegin(0, obj)), PutOffer(0)); Balanced(t) && FirstInFirstOut(t)
  {
    hide Next, Balanced, FirstInFirstOut;
    Keeps(s, PutBegin(0, obj));
    Keeps(Next(s, PutBegin(0, obj)), PutOffer(0));
  }

  lemma Keeps<T>(s: State<T>, l: Label<T>)
    requires Balanced(s) && FirstInFirstOut(s)
    ensures Balanced(Next(s, l)) && FirstInFirstOut(Next(s, l))
  {
    hide Next, Balanced, FirstInFirstOut;
    NextBalanced(s, l);
    NextFirstInFirstOut(s, l);
  }

  class GenericPool<T(==)> {
    const maxSize: nat
    var pool: seq<T>
    var created: nat
    var gotten: nat
    var put: nat

    ghost var hits: seq<T>
    ghost var queued: seq<T>
    ghost var timeouts: nat
    ghost var discarded: nat

    function Fields(): Pool<T>
      reads this
    {
      Pool(pool, maxSize, created, gotten, put)
    }

    /** The pool with no call in flight. */
    ghost function View(): State<T>
      reads this
    {
      State(Fields(), map[], map[], hits, queued, created, timeouts, discarded)
    }

    ghost predicate Valid()
      reads this
    {
      |pool| <= maxSize
    }

    constructor (maxSize: nat)
      ensures Valid() && Settled() && View() == Init(maxSize)
    {
      this.maxSize := maxSize;
      pool, created, gotten, put := [], 0, 0, 0;
      hits, queued, timeouts, discarded := [], [], 0, 0;
    }

    /** With no call in flight the books balance. */
    ghost predicate Settled()
      reads this
    {
      Balanced(View()) && FirstInFirstOut(View())
    }

    // The atomic accesses of `Get` and `Put`.

    method BeginGet()
      modifies this`gotten
      ensures gotten == old(gotten) + 1
    {
      gotten := gotten + 1;
    }

    method Receive() returns (obj: T)
      requires pool != []
      modifies this`pool, this`hits
      ensures (obj, Fields()) == Take(old(Fields()))
      ensures hits == old(hits) + [obj]
    {
      obj, pool := pool[0], pool[1..];
      hits := hits + [obj];
    }

    method CountCreation()
      modifies this`created
      ensures created == old(created) + 1
    {
      created := created + 1;
    }

    method BeginPut()
      modifies this`put
      ensures put == old(put) + 1
    {
      put := put + 1;
    }

    /** The non-blocking send. */
    method Keep(obj: T)
      requires Valid()
      modifies this`pool, this`queued, this`discarded
      ensures Valid() && Fields() == Offer(old(Fields()), obj)
      ensures if |old(pool)| < maxSize then queued == old(queued) + [obj] && discarded == old(discarded)
              else queued == old(queued) && discarded == old(discarded) + 1
    {
      if |pool| < maxSize {
        pool := pool + [obj];
        queued := queued + [obj];
      } else {
        discarded := discarded + 1;
      }
    }

    /** `made` is what the factory returns if it is called; `arrival` is an object that another
        goroutine puts back during the 100 ms wait, if this call gets that far and one does. */
    method Get(made: T, arrival: Option<T>) returns (obj: T)
      requires Valid()
      modifies this
      ensures Valid() && View() == GetSteps(old(View()), arrival)
      ensures old(Settled()) ==> Settled()
      ensures arrival.None? ==> pool == if old(pool) != [] then old(pool)[1..] else []
      ensures created == old(created) + if old(pool) == [] && old(created) < maxSize then 1 else 0
      ensures obj == if old(pool) != [] then old(pool)[0]
                     else if old(created) < maxSize || arrival.None? then made
                     else arrival.value
    {
      hide GetSteps, Next, Balanced, FirstInFirstOut;
      ghost var before := View();
      if Settled() {
        GetStepsSettled(before, arrival);
      }
      BeginGet();
      if pool != [] {
        GetImmediate(before, arrival);
        obj := Receive();
      } else if created < maxSize {
        GetCreates(before, arrival);
        CountCreation();
        obj := made;
      } else if arrival.None? {
        GetTimesOut(before);
        obj := made;
        timeouts := timeouts + 1;
      } else {
        // The other goroutine's Put, then this call's receive.
        GetReceives(before, arrival.value);
        put := put + 1;
        obj := arrival.value;
        queued, hits := queued + [obj], hits + [obj];
      }
    }

    /** The reset of `obj` in between touches no field of the pool. */
    method Put(obj: T)
      requires Valid()
      modifies this
      ensures Valid() && View() == Next(Next(old(View()), PutBegin(0, obj)), PutOffer(0))
      ensures Fields() == Offer(old(Fields()).(put := old(put) + 1), obj)
      ensures old(Settled()) ==> Settled()
    {
      ghost var before := View();
      BeginPut();
      Keep(obj);
      assert map[0 := obj] - {0} == map[];
      if old(Settled()) {
        PutSettled(before, obj);
      }
    }

    /** `created` objects made and counted. */
    method Size() returns (n: nat)
      requires Settled()
      ensures n == gotten - |hits| - timeouts
    {
      n := created;
    }

    /** What was put back and kept, less what was handed out again. */
    method Available() returns (n: nat)
      requires Settled()
      ensures n == |queued| - |hits| <= maxSize
    {
      n := |pool|;
    }

    /** Every Get was served from the pool, by a counted creation or by one after the wait; every Put was kept
        or discarded. */
    method Stats() returns (createdCount: nat, gottenCount: nat, putCount: nat)
      requires Settled()
      ensures gottenCount == |hits| + createdCount + timeouts
      ensures putCount == |queued| + discarded
    {
      createdCount, gottenCount, putCount := created, gotten, put;
    }
  }
}
