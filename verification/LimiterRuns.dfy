/** Eviction against no eviction, and how many requests a bucket admits in any window. */
module LimiterRuns {
  import opened Limiter

  /** Rate and burst of each key, fixed for the run. */
  datatype Config = Config(rate: real, burst: int)

  type Configs = string -> Config

  datatype Event = Request(key: string, at: real) | Clean(at: real)

  /** The clock never goes back. */
  predicate Ordered(es: seq<Event>, from: real)
    decreases |es|
  {
    es == [] || (from <= es[0].at && Ordered(es[1..], es[0].at))
  }

  function Step(cfg: Configs, evict: bool, m: Buckets, e: Event): Buckets {
    match e
    case Request(key, at) => Check(m, key, cfg(key).rate, cfg(key).burst, at).0
    case Clean(at) => if evict then Cleanup(m, at) else m
  }

  /** The answer to a request; a cleanup gives none. */
  function Answer(cfg: Configs, m: Buckets, e: Event): seq<bool> {
    match e
    case Request(key, at) => [Check(m, key, cfg(key).rate, cfg(key).burst, at).1]
    case Clean(_) => []
  }

  function Answers(cfg: Configs, evict: bool, m: Buckets, es: seq<Event>): seq<bool>
    decreases |es|
  {
    if es == [] then [] else Answer(cfg, m, es[0]) + Answers(cfg, evict, Step(cfg, evict, m, es[0]), es[1..])
  }

  function After(cfg: Configs, evict: bool, m: Buckets, es: seq<Event>): Buckets
    decreases |es|
  {
    if es == [] then m else After(cfg, evict, Step(cfg, evict, m, es[0]), es[1..])
  }

  /** An empty bucket is full again by the time it may be evicted. */
  predicate Covers(c: Config) {
    c.burst <= 0 || Refill(c.rate, EXPIRY) >= c.burst as real
  }

  // ---------------------------------------------------------------- arithmetic of refilling

  lemma RefillMonotonic(rate: real, x: real, y: real)
    requires 0.0 <= x <= y
    ensures 0.0 <= Refill(rate, x) <= Refill(rate, y)
  {
    if rate > 0.0 {
      assert rate * (y - x) >= 0.0;
      assert rate * x >= 0.0;
    }
  }

  lemma RefillSum(rate: real, x: real, y: real)
    ensures Refill(rate, x + y) == Refill(rate, x) + Refill(rate, y)
  {
  }

  // ---------------------------------------------------------------- one call

  /** Only a request that is allowed, or the first one of a key, counts as activity of the key; a call touches
      no other key. */
  lemma CheckActivity(m: Buckets, key: string, r: real, burst: int, t: real)
    ensures var (m', allowed) := Check(m, key, r, burst, t);
            && m'.Keys == m.Keys + {key}
            && m'[key].lastRequest == (if allowed || key !in m then t else m[key].lastRequest)
            && m'[key].rate == r && m'[key].burst == burst
            && forall k :: k in m && k != key ==> m'[k] == m[k]
  {
  }

  /** A cleanup removes the keys without activity for more than 3600 seconds and nothing else. */
  lemma CleanupExact(m: Buckets, now: real)
    ensures var m' := Cleanup(m, now);
            && (forall k :: k in m' <==> k in m && now - m[k].lastRequest <= 3600.0)
            && forall k :: k in m' ==> m'[k] == m[k]
  {
  }

  /** When a key's limits change at t, it keeps the tokens it has and goes on at the new rate, up to the new
      burst. */
  lemma ReconfigureExact(b: Bucket, r: real, burst: int, t: real, later: real)
    requires b.limiter.limit == b.rate && b.limiter.burst == b.burst && b.limiter.last <= t <= later
    requires b.rate != r || b.burst != burst
    ensures var b' := Reconfigure(b, r, burst, t);
            && b'.rate == b'.limiter.limit == r && b'.burst == b'.limiter.burst == burst
            && b'.lastRequest == b.lastRequest
            && Level(b'.limiter, later)
               == Min(Level(b.limiter, t) + (if r > 0.0 then r * (later - t) else 0.0), burst as real)
  {
  }

  // ---------------------------------------------------------------- sound buckets

  /** The bucket of a key under its configuration at time t. */
  ghost predicate Sound(c: Config, b: Bucket, t: real) {
    && b.limiter.limit == b.rate == c.rate && b.limiter.burst == b.burst == c.burst
    && b.limiter.last <= b.lastRequest <= t
    && Min(0.0, c.burst as real) <= b.limiter.tokens <= c.burst as real
  }

  ghost predicate AllSound(cfg: Configs, m: Buckets, t: real) {
    forall k :: k in m ==> Sound(cfg(k), m[k], t)
  }

  /** The tokens that a request on the key would find at time t. */
  function KeyLevel(cfg: Configs, m: Buckets, key: string, t: real): real {
    if key in m then Level(m[key].limiter, t) else cfg(key).burst as real
  }

  lemma StepSound(cfg: Configs, evict: bool, m: Buckets, e: Event, from: real)
    requires AllSound(cfg, m, from) && from <= e.at
    ensures AllSound(cfg, Step(cfg, evict, m, e), e.at)
  {
    if e.Request? && e.key in m {
      RefillMonotonic(cfg(e.key).rate, 0.0, e.at - m[e.key].limiter.last);
    }
  }

  /** Waiting adds exactly the refill, up to the burst. */
  lemma LevelLater(cfg: Configs, m: Buckets, key: string, s: real, t: real)
    requires AllSound(cfg, m, s) && s <= t
    ensures KeyLevel(cfg, m, key, t) == Min(KeyLevel(cfg, m, key, s) + Refill(cfg(key).rate, t - s), cfg(key).burst as real)
    ensures KeyLevel(cfg, m, key, s) <= KeyLevel(cfg, m, key, t) <= cfg(key).burst as real
    ensures KeyLevel(cfg, m, key, t) >= Min(0.0, cfg(key).burst as real)
  {
    RefillMonotonic(cfg(key).rate, 0.0, t - s);
    if key in m {
      var last := m[key].limiter.last;
      RefillMonotonic(cfg(key).rate, 0.0, s - last);
      RefillSum(cfg(key).rate, s - last, t - s);
      assert (s - last) + (t - s) == t - last;
    }
  }

  /** Past the expiry a covered bucket is full, which is how a new one starts. */
  lemma ExpiredIsFull(cfg: Configs, m: Buckets, key: string, now: real)
    requires AllSound(cfg, m, now) && Covers(cfg(key))
    requires key in m && now - m[key].lastRequest > EXPIRY
    ensures KeyLevel(cfg, m, key, now) == cfg(key).burst as real
  {
    RefillMonotonic(cfg(key).rate, EXPIRY, now - m[key].limiter.last);
  }

  // ---------------------------------------------------------------- eviction is unobservable

  /** The two managers hold the same bucket for the key, or both would find it full. */
  ghost predicate SameKey(cfg: Configs, m: Buckets, n: Buckets, key: string, t: real) {
    || (key in m && key in n && m[key].limiter == n[key].limiter)
    || (KeyLevel(cfg, m, key, t) == cfg(key).burst as real == KeyLevel(cfg, n, key, t))
  }

  ghost predicate Same(cfg: Configs, m: Buckets, n: Buckets, t: real) {
    forall key :: SameKey(cfg, m, n, key, t)
  }

  lemma SameLater(cfg: Configs, m: Buckets, n: Buckets, s: real, t: real)
    requires AllSound(cfg, m, s) && AllSound(cfg, n, s) && s <= t && Same(cfg, m, n, s)
    ensures Same(cfg, m, n, t)
  {
    forall key ensures SameKey(cfg, m, n, key, t) {
      assert SameKey(cfg, m, n, key, s);
      LevelLater(cfg, m, key, s, t);
      LevelLater(cfg, n, key, s, t);
    }
  }

  lemma StepSame(cfg: Configs, m: Buckets, n: Buckets, e: Event)
    requires AllSound(cfg, m, e.at) && AllSound(cfg, n, e.at) && Same(cfg, m, n, e.at)
    requires forall k :: Covers(cfg(k))
    ensures Answer(cfg, m, e) == Answer(cfg, n, e)
    ensures Same(cfg, Step(cfg, true, m, e), Step(cfg, false, n, e), e.at)
  {
    var m', n' := Step(cfg, true, m, e), Step(cfg, false, n, e);
    if e.Request? {
      assert SameKey(cfg, m, n, e.key, e.at);
    }
    forall key ensures SameKey(cfg, m', n', key, e.at) {
      assert SameKey(cfg, m, n, key, e.at);
      if e.Clean? && key in m && key !in m' {
        ExpiredIsFull(cfg, m, key, e.at);
      }
    }
  }

  lemma {:induction false} RunSame(cfg: Configs, m: Buckets, n: Buckets, es: seq<Event>, from: real)
    requires AllSound(cfg, m, from) && AllSound(cfg, n, from) && Same(cfg, m, n, from)
    requires Ordered(es, from) && forall k :: Covers(cfg(k))
    ensures Answers(cfg, true, m, es) == Answers(cfg, false, n, es)
    decreases |es|
  {
    if es != [] {
      SameLater(cfg, m, n, from, es[0].at);
      StepSound(cfg, true, m, es[0], from);
      StepSound(cfg, false, n, es[0], from);
      assert AllSound(cfg, m, es[0].at) && AllSound(cfg, n, es[0].at);
      StepSame(cfg, m, n, es[0]);
      RunSame(cfg, Step(cfg, true, m, es[0]), Step(cfg, false, n, es[0]), es[1..], es[0].at);
    }
  }

  // ---------------------------------------------------------------- ... exactly when idle buckets refill

  function Repeat(e: Event, n: nat): seq<Event> {
    if n == 0 then [] else [e] + Repeat(e, n - 1)
  }

  ghost predicate AllAllowed(answers: seq<bool>) {
    forall i :: 0 <= i < |answers| ==> answers[i]
  }

  lemma {:induction false} OrderedAppend(a: seq<Event>, b: seq<Event>, from: real, mid: real)
    requires Ordered(a, from) && Ordered(b, mid) && from <= mid
    requires forall i :: 0 <= i < |a| ==> a[i].at <= mid
    ensures Ordered(a + b, from)
    decreases |a|
  {
    if a == [] {
      assert a + b == b;
    } else {
      assert (a + b)[1..] == a[1..] + b;
      OrderedAppend(a[1..], b, a[0].at, mid);
    }
  }

  lemma {:induction false} AnswersAppend(cfg: Configs, evict: bool, m: Buckets, a: seq<Event>, b: seq<Event>)
    ensures Answers(cfg, evict, m, a + b) == Answers(cfg, evict, m, a) + Answers(cfg, evict, After(cfg, evict, m, a), b)
    ensures After(cfg, evict, m, a + b) == After(cfg, evict, After(cfg, evict, m, a), b)
    decreases |a|
  {
    hide Step, Answer;
    if a == [] {
      assert a + b == b;
    } else {
      assert (a + b)[1..] == a[1..] + b;
      AnswersAppend(cfg, evict, Step(cfg, evict, m, a[0]), a[1..], b);
    }
  }

  lemma {:induction false} RepeatOrdered(key: string, at: real, n: nat)
    ensures Ordered(Repeat(Request(key, at), n), at) && |Repeat(Request(key, at), n)| == n
    ensures forall i :: 0 <= i < n ==> Repeat(Request(key, at), n)[i] == Request(key, at)
  {
    if n > 0 {
      RepeatOrdered(key, at, n - 1);
    }
  }

  /** n requests at one instant are all allowed iff the bucket has n tokens, and then they use n. */
  lemma {:induction false} BurstAnswers(cfg: Configs, evict: bool, m: Buckets, key: string, at: real, n: nat)
    requires AllSound(cfg, m, at)
    ensures var es := Repeat(Request(key, at), n);
            var m' := After(cfg, evict, m, es);
            && (AllAllowed(Answers(cfg, evict, m, es)) <==> n == 0 || KeyLevel(cfg, m, key, at) >= n as real)
            && AllSound(cfg, m', at)
            && (AllAllowed(Answers(cfg, evict, m, es)) && n > 0 ==>
                  && KeyLevel(cfg, m', key, at) == KeyLevel(cfg, m, key, at) - n as real
                  && key in m' && m'[key].lastRequest == at)
    decreases n
  {
    if n > 0 {
      var e := Request(key, at);
      var m1 := Step(cfg, evict, m, e);
      var rest := Answers(cfg, evict, m1, Repeat(e, n - 1));
      StepSound(cfg, evict, m, e, at);
      LevelLater(cfg, m, key, at, at);
      LevelLater(cfg, m1, key, at, at);
      BurstAnswers(cfg, evict, m1, key, at, n - 1);
      var all := Answers(cfg, evict, m, Repeat(e, n));
      assert all == Answer(cfg, m, e) + rest;
      assert all[0] == Check(m, key, cfg(key).rate, cfg(key).burst, at).1;
      assert AllAllowed(all) <==> all[0] && AllAllowed(rest) by {
        assert forall i :: 0 <= i < |rest| ==> all[i + 1] == rest[i];
      }
      if n == 1 && all[0] {
        assert After(cfg, evict, m, Repeat(e, n)) == After(cfg, evict, m1, []);
      }
    }
  }

  /** A moment past the expiry at which an emptied bucket is still not full. */
  lemma NotYetFull(c: Config) returns (t: real)
    requires !Covers(c)
    ensures t > EXPIRY && Refill(c.rate, t) < c.burst as real
  {
    if c.rate <= 0.0 {
      t := EXPIRY + 1.0;
    } else {
      var full := c.burst as real / c.rate;
      assert c.rate * full == c.burst as real;
      if full <= EXPIRY {
        RefillMonotonic(c.rate, if full < 0.0 then 0.0 else full, EXPIRY);
      }
      t := (EXPIRY + full) / 2.0;
      assert c.rate * (full - t) > 0.0;
    }
  }

  /** Empty the bucket at 0, clean up at t, ask for a whole burst again: all of it is allowed iff the bucket
      was evicted. */
  lemma AskAgain(cfg: Configs, evict: bool, key: string, t: real)
    requires !Covers(cfg(key)) && t > EXPIRY && Refill(cfg(key).rate, t) < cfg(key).burst as real
    ensures var n: nat := cfg(key).burst;
            var m := Step(cfg, evict, After(cfg, evict, map[], Repeat(Request(key, 0.0), n)), Clean(t));
            AllAllowed(Answers(cfg, evict, m, Repeat(Request(key, t), n))) <==> evict
  {
    var n: nat := cfg(key).burst;
    BurstAnswers(cfg, evict, map[], key, 0.0, n);
    var m := After(cfg, evict, map[], Repeat(Request(key, 0.0), n));
    StepSound(cfg, evict, m, Clean(t), 0.0);
    LevelLater(cfg, m, key, 0.0, t);
    BurstAnswers(cfg, evict, Step(cfg, evict, m, Clean(t)), key, t, n);
  }

  lemma CleanFirst(cfg: Configs, evict: bool, m: Buckets, clean: Event, again: seq<Event>)
    requires clean.Clean?
    ensures Answers(cfg, evict, m, [clean] + again) == Answers(cfg, evict, Step(cfg, evict, m, clean), again)
  {
    assert Answer(cfg, m, clean) == [];
    hide Step, Answer;
    assert ([clean] + again)[1..] == again;
  }

  lemma SplitRun(cfg: Configs, evict: bool, drain: seq<Event>, clean: Event, again: seq<Event>)
    requires clean.Clean?
    ensures Answers(cfg, evict, map[], drain + ([clean] + again)) ==
            Answers(cfg, evict, map[], drain)
            + Answers(cfg, evict, Step(cfg, evict, After(cfg, evict, map[], drain), clean), again)
  {
    AnswersAppend(cfg, evict, map[], drain, [clean] + again);
    CleanFirst(cfg, evict, After(cfg, evict, map[], drain), clean, again);
    hide Answers, After, Step;
  }

  lemma TailsDiffer(head: seq<bool>, a: seq<bool>, b: seq<bool>)
    requires AllAllowed(a) && !AllAllowed(b)
    ensures head + a != head + b
  {
    assert (head + a)[|head|..] == a && (head + b)[|head|..] == b;
  }

  /** The run that tells the two managers apart when a key does not refill in time. */
  lemma EvictionShows(cfg: Configs, key: string)
    requires !Covers(cfg(key))
    ensures exists es :: Ordered(es, 0.0) && Answers(cfg, true, map[], es) != Answers(cfg, false, map[], es)
  {
    var n: nat := cfg(key).burst;
    var t := NotYetFull(cfg(key));
    hide Step, Answer, Answers, After, Ordered;
    var drain, again := Repeat(Request(key, 0.0), n), Repeat(Request(key, t), n);
    var es := drain + ([Clean(t)] + again);
    RepeatOrdered(key, 0.0, n);
    RepeatOrdered(key, t, n);
    OrderedAppend(drain, [Clean(t)] + again, 0.0, t);
    SplitRun(cfg, true, drain, Clean(t), again);
    SplitRun(cfg, false, drain, Clean(t), again);
    AskAgain(cfg, true, key, t);
    AskAgain(cfg, false, key, t);
    RequestsSame(cfg, map[], drain);
    TailsDiffer(Answers(cfg, true, map[], drain),
                Answers(cfg, true, Step(cfg, true, After(cfg, true, map[], drain), Clean(t)), again),
                Answers(cfg, false, Step(cfg, false, After(cfg, false, map[], drain), Clean(t)), again));
  }

  /** Without a cleanup in it, a run does not depend on eviction. */
  lemma {:induction false} RequestsSame(cfg: Configs, m: Buckets, es: seq<Event>)
    requires forall i :: 0 <= i < |es| ==> es[i].Request?
    ensures Answers(cfg, true, m, es) == Answers(cfg, false, m, es)
    decreases |es|
  {
    if es != [] {
      RequestsSame(cfg, Step(cfg, true, m, es[0]), es[1..]);
    }
  }

  ghost predicate Unobservable(cfg: Configs) {
    forall es :: Ordered(es, 0.0) ==> Answers(cfg, true, map[], es) == Answers(cfg, false, map[], es)
  }

  /** Eviction never changes an answer iff every key's bucket refills completely within the hour: its rate
      times 3600 seconds makes up its burst, or there is no burst to make up. */
  lemma EvictionExact(cfg: Configs)
    ensures Unobservable(cfg) <==>
            forall key :: cfg(key).burst <= 0 || cfg(key).rate * 3600.0 >= cfg(key).burst as real
  {
    forall key ensures Covers(cfg(key)) <==>
                       cfg(key).burst <= 0 || cfg(key).rate * 3600.0 >= cfg(key).burst as real {
    }
    if forall key :: Covers(cfg(key)) {
      forall es | Ordered(es, 0.0) ensures Answers(cfg, true, map[], es) == Answers(cfg, false, map[], es) {
        RunSame(cfg, map[], map[], es, 0.0);
      }
    } else {
      var key :| !Covers(cfg(key));
      EvictionShows(cfg, key);
    }
  }

  // ---------------------------------------------------------------- the admission bound

  function One(b: bool): nat { if b then 1 else 0 }

  /** Requests on the key allowed at a time in [a, z]. */
  function Admitted(cfg: Configs, evict: bool, m: Buckets, es: seq<Event>, key: string, a: real, z: real): nat
    decreases |es|
  {
    if es == [] then 0
    else
      One(es[0].Request? && es[0].key == key && a <= es[0].at <= z && Answer(cfg, m, es[0]) == [true])
      + Admitted(cfg, evict, Step(cfg, evict, m, es[0]), es[1..], key, a, z)
  }

  /** What the bucket can still admit up to z: the tokens at the opening of the window, and the refill from
      then on. */
  function Budget(cfg: Configs, m: Buckets, key: string, from: real, a: real, z: real): real {
    if z < from then 0.0
    else if from < a then Max(cfg(key).burst as real, 0.0) + Refill(cfg(key).rate, z - a)
    else Max(KeyLevel(cfg, m, key, from), 0.0) + Refill(cfg(key).rate, z - from)
  }

  lemma StepBudget(cfg: Configs, evict: bool, m: Buckets, e: Event, key: string, from: real, a: real, z: real)
    requires AllSound(cfg, m, from) && from <= e.at && a <= z && (evict ==> Covers(cfg(key)))
    ensures One(e.Request? && e.key == key && a <= e.at <= z && Answer(cfg, m, e) == [true]) as real
            + Budget(cfg, Step(cfg, evict, m, e), key, e.at, a, z) <= Budget(cfg, m, key, from, a, z)
  {
    var m' := Step(cfg, evict, m, e);
    StepSound(cfg, evict, m, e, from);
    LevelLater(cfg, m, key, from, e.at);
    LevelLater(cfg, m', key, e.at, e.at);
    StepLevel(cfg, evict, m, e, key, from);
    if z >= e.at {
      RefillSum(cfg(key).rate, e.at - from, z - e.at);
      assert (e.at - from) + (z - e.at) == z - from;
      RefillMonotonic(cfg(key).rate, 0.0, z - e.at);
      if from < a <= e.at {
        RefillMonotonic(cfg(key).rate, z - e.at, z - a);
      }
    } else if z >= from {
      RefillMonotonic(cfg(key).rate, 0.0, z - from);
      RefillMonotonic(cfg(key).rate, 0.0, z - a);
    }
  }

  /** An allowed request takes one token of its key; nothing else changes what a request would find. */
  lemma StepLevel(cfg: Configs, evict: bool, m: Buckets, e: Event, key: string, from: real)
    requires AllSound(cfg, m, from) && from <= e.at && (evict ==> Covers(cfg(key)))
    ensures KeyLevel(cfg, Step(cfg, evict, m, e), key, e.at) ==
            KeyLevel(cfg, m, key, e.at)
            - One(e.Request? && e.key == key && Answer(cfg, m, e) == [true]) as real
    ensures e.Request? && e.key == key ==> (Answer(cfg, m, e) == [true] <==> KeyLevel(cfg, m, key, e.at) >= 1.0)
  {
    LevelLater(cfg, m, key, from, e.at);
    if e.Clean? && evict && key in m && e.at - m[key].lastRequest > EXPIRY {
      ExpiredIsFull(cfg, m, key, e.at);
    }
  }

  lemma {:induction false} RunBudget(cfg: Configs, evict: bool, m: Buckets, es: seq<Event>, key: string,
                                     from: real, a: real, z: real)
    requires AllSound(cfg, m, from) && Ordered(es, from) && a <= z && (evict ==> Covers(cfg(key)))
    ensures Admitted(cfg, evict, m, es, key, a, z) as real <= Budget(cfg, m, key, from, a, z)
    decreases |es|
  {
    LevelLater(cfg, m, key, from, from);
    if es == [] {
      RefillMonotonic(cfg(key).rate, 0.0, z - a);
      if from <= z { RefillMonotonic(cfg(key).rate, 0.0, z - from); }
    } else {
      StepBudget(cfg, evict, m, es[0], key, from, a, z);
      StepSound(cfg, evict, m, es[0], from);
      RunBudget(cfg, evict, Step(cfg, evict, m, es[0]), es[1..], key, es[0].at, a, z);
    }
  }

  /** In any window of length z - a of any run, a key is admitted at most burst + rate * (z - a) times,
      cleanups included when its bucket refills within the hour. */
  lemma AdmissionBound(cfg: Configs, evict: bool, es: seq<Event>, key: string, a: real, z: real)
    requires Ordered(es, 0.0) && 0.0 <= a <= z
    requires evict ==> cfg(key).burst <= 0 || cfg(key).rate * 3600.0 >= cfg(key).burst as real
    ensures Admitted(cfg, evict, map[], es, key, a, z) as real
            <= (if cfg(key).burst >= 0 then cfg(key).burst as real else 0.0)
               + if cfg(key).rate >= 0.0 then cfg(key).rate * (z - a) else 0.0
  {
    RunBudget(cfg, evict, map[], es, key, 0.0, a, z);
  }

  lemma EmptyAt(cfg: Configs, evict: bool, key: string, s: real)
    requires cfg(key).burst >= 0
    ensures var m := After(cfg, evict, map[], Repeat(Request(key, s), cfg(key).burst));
            AllSound(cfg, m, s) && KeyLevel(cfg, m, key, s) == 0.0
  {
    BurstAnswers(cfg, evict, map[], key, s, cfg(key).burst);
  }

  lemma RefilledAt(cfg: Configs, evict: bool, key: string, s: real, t: real)
    requires cfg(key).rate >= 0.0 && cfg(key).burst >= 0 && s <= t
    ensures var m := After(cfg, evict, map[], Repeat(Request(key, s), cfg(key).burst));
            && AllSound(cfg, m, t)
            && KeyLevel(cfg, m, key, t) == Min(cfg(key).rate * (t - s), cfg(key).burst as real)
  {
    EmptyAt(cfg, evict, key, s);
    var m := After(cfg, evict, map[], Repeat(Request(key, s), cfg(key).burst));
    LevelLater(cfg, m, key, s, t);
    hide After, KeyLevel;
  }

  /** A new key is allowed its whole burst at once and no more, and what it has used up comes back at its
      rate: emptied at s and asked n times at t, it is allowed all n iff min(burst, rate * (t - s)) >= n. */
  lemma RefillExact(cfg: Configs, evict: bool, key: string, s: real, t: real, n: nat)
    requires cfg(key).rate >= 0.0 && cfg(key).burst >= 0 && s <= t && n >= 1
    ensures AllAllowed(Answers(cfg, evict, map[], Repeat(Request(key, s), n))) <==> n <= cfg(key).burst
    ensures var drain := Repeat(Request(key, s), cfg(key).burst);
            var again := Repeat(Request(key, t), n);
            && AllAllowed(Answers(cfg, evict, map[], drain))
            && (AllAllowed(Answers(cfg, evict, After(cfg, evict, map[], drain), again))
                <==> n <= cfg(key).burst && cfg(key).rate * (t - s) >= n as real)
  {
    hide After, Answers, AllAllowed, Refill, Level, AllSound;
    var m := After(cfg, evict, map[], Repeat(Request(key, s), cfg(key).burst));
    BurstAnswers(cfg, evict, map[], key, s, n);
    BurstAnswers(cfg, evict, map[], key, s, cfg(key).burst);
    RefilledAt(cfg, evict, key, s, t);
    BurstAnswers(cfg, evict, m, key, t, n);
  }

  // ---------------------------------------------------------------- keys are independent

  function OnlyKey(es: seq<Event>, key: string): seq<Event>
    decreases |es|
  {
    if es == [] then []
    else (if es[0].Request? && es[0].key != key then [] else [es[0]]) + OnlyKey(es[1..], key)
  }

  function KeyAnswers(cfg: Configs, evict: bool, m: Buckets, es: seq<Event>, key: string): seq<bool>
    decreases |es|
  {
    if es == [] then []
    else (if es[0].Request? && es[0].key == key then Answer(cfg, m, es[0]) else [])
         + KeyAnswers(cfg, evict, Step(cfg, evict, m, es[0]), es[1..], key)
  }

  /** A key's answers are those of the run without the requests on other keys. */
  lemma {:induction false} KeysIndependent(cfg: Configs, evict: bool, m: Buckets, n: Buckets, es: seq<Event>, key: string)
    requires (key in m <==> key in n) && (key in m ==> m[key] == n[key])
    ensures KeyAnswers(cfg, evict, m, es, key) == KeyAnswers(cfg, evict, n, OnlyKey(es, key), key)
    decreases |es|
  {
    if es != [] {
      var m' := Step(cfg, evict, m, es[0]);
      if es[0].Request? && es[0].key != key {
        assert OnlyKey(es, key) == OnlyKey(es[1..], key);
        KeysIndependent(cfg, evict, m', n, es[1..], key);
      } else {
        assert OnlyKey(es, key)[0] == es[0] && OnlyKey(es, key)[1..] == OnlyKey(es[1..], key);
        KeysIndependent(cfg, evict, m', Step(cfg, evict, n, es[0]), es[1..], key);
      }
    }
  }
}
