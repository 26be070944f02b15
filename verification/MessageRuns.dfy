/** Messages taken from the pool, filled and put back, over any history: a holder finds in his message what
    he put there, as long as nobody uses a message he has put back; and what a second Put does. */
module MessageRuns {
  import opened Wrappers
  import opened ObjectPool
  import opened Buffers

  type Bytes = seq<byte>

  /** Every Get draws a ticket: `hand[t]` is the message it handed out, `last[t]` what its holder has set since
      (nothing at first), and t is `open` until he puts the message back. Nothing in the pool remembers
      tickets: a holder may go on using a message he has put back. */
  datatype Store<M> = Store(
    maxSize: nat,
    created: nat,
    free: seq<M>,
    data: map<M, Bytes>,
    hand: seq<M>,
    open: set<nat>,
    last: seq<Bytes>)

  function Empty<M>(maxSize: nat): Store<M> {
    Store(maxSize, 0, [], map[], [], {}, [])
  }

  /** `made` is the factory's message, if the pool has none. */
  datatype Op<M> = Take(made: M) | Fill(t: nat, src: Bytes) | Give(t: nat)

  predicate Possible<M(==)>(s: Store<M>, op: Op<M>) {
    match op
    case Take(made) => s.free != [] || made !in s.data
    case Fill(t, _) => t < |s.hand| == |s.last|
    case Give(t) => t < |s.hand|
  }

  function Step<M(==)>(s: Store<M>, op: Op<M>): Store<M> {
    if !Possible(s, op) then s else
    match op
    case Take(made) =>
      if s.free != [] then
        s.(free := s.free[1..], hand := s.hand + [s.free[0]], open := s.open + {|s.hand|}, last := s.last + [[]])
      else
        s.(created := if s.created < s.maxSize then s.created + 1 else s.created, data := s.data[made := []],
           hand := s.hand + [made], open := s.open + {|s.hand|}, last := s.last + [[]])
    case Fill(t, src) => s.(data := s.data[s.hand[t] := src], last := s.last[t := src])
    case Give(t) =>
      s.(data := s.data[s.hand[t] := []], open := s.open - {t},
         free := if |s.free| < s.maxSize then s.free + [s.hand[t]] else s.free)
  }

  function Run<M(==)>(s: Store<M>, ops: seq<Op<M>>): Store<M>
    decreases |ops|
  {
    if ops == [] then s else Run(Step(s, ops[0]), ops[1..])
  }

  /** Only who holds a message fills it or puts it back. */
  predicate Honest<M(==)>(s: Store<M>, op: Op<M>) {
    op.Take? || op.t in s.open
  }

  predicate AllHonest<M(==)>(s: Store<M>, ops: seq<Op<M>>)
    decreases |ops|
  {
    ops == [] || (Honest(s, ops[0]) && AllHonest(Step(s, ops[0]), ops[1..]))
  }

  // ---------------------------------------------------------------- what holders rely on

  ghost predicate WellFormed<M>(s: Store<M>) {
    && |s.hand| == |s.last|
    && (forall t :: t in s.open ==> t < |s.hand|)
    && (forall t :: 0 <= t < |s.hand| ==> s.hand[t] in s.data)
    && (forall i :: 0 <= i < |s.free| ==> s.free[i] in s.data)
  }

  /** Every holder finds what he set last, and a message fresh from the pool is empty. */
  ghost predicate OwnData<M>(s: Store<M>)
    requires WellFormed(s)
  {
    forall t :: t in s.open ==> s.data[s.hand[t]] == s.last[t]
  }

  /** Idle messages are distinct and empty, and none of them is held; nobody shares a message. */
  ghost predicate Sound<M>(s: Store<M>)
    requires WellFormed(s)
  {
    && (forall i, j :: 0 <= i < j < |s.free| ==> s.free[i] != s.free[j])
    && (forall i :: 0 <= i < |s.free| ==> s.data[s.free[i]] == [])
    && (forall t, i :: t in s.open && 0 <= i < |s.free| ==> s.hand[t] != s.free[i])
    && (forall t, u :: t in s.open && u in s.open && t != u ==> s.hand[t] != s.hand[u])
  }

  lemma StepFormed<M>(s: Store<M>, op: Op<M>)
    requires WellFormed(s)
    ensures WellFormed(Step(s, op))
  {
  }

  lemma StepSound<M>(s: Store<M>, op: Op<M>)
    requires WellFormed(s) && Sound(s) && Honest(s, op) && WellFormed(Step(s, op))
    ensures Sound(Step(s, op))
  {
  }

  lemma StepOwn<M>(s: Store<M>, op: Op<M>)
    requires WellFormed(s) && Sound(s) && OwnData(s) && Honest(s, op) && WellFormed(Step(s, op))
    ensures OwnData(Step(s, op))
  {
  }

  lemma {:induction false} RunSound<M>(s: Store<M>, ops: seq<Op<M>>)
    requires WellFormed(s) && Sound(s) && OwnData(s) && AllHonest(s, ops)
    ensures WellFormed(Run(s, ops)) && Sound(Run(s, ops)) && OwnData(Run(s, ops))
    decreases |ops|
  {
    hide Step, Sound, OwnData, WellFormed, Honest;
    if ops != [] {
      StepFormed(s, ops[0]);
      StepSound(s, ops[0]);
      StepOwn(s, ops[0]);
      RunSound(Step(s, ops[0]), ops[1..]);
    }
  }

  lemma {:induction false} RunFormed<M>(s: Store<M>, ops: seq<Op<M>>)
    requires WellFormed(s)
    ensures WellFormed(Run(s, ops))
    decreases |ops|
  {
    hide Step, WellFormed;
    if ops != [] {
      StepFormed(s, ops[0]);
      RunFormed(Step(s, ops[0]), ops[1..]);
    }
  }

  /** Over any history of takes, fills and gives by holders only, each holder's message holds what he set last,
      and no two holders have the same message, however often messages were reused. */
  lemma HoldersKeepTheirData<M>(maxSize: nat, ops: seq<Op<M>>, t: nat, u: nat)
    requires AllHonest(Empty<M>(maxSize), ops)
    requires var s := Run(Empty<M>(maxSize), ops); t in s.open && u in s.open
    ensures var s := Run(Empty<M>(maxSize), ops);
            && t < |s.hand| == |s.last| && u < |s.hand| && s.hand[t] in s.data
            && s.data[s.hand[t]] == s.last[t]
            && (t != u ==> s.hand[t] != s.hand[u])
  {
    RunSound(Empty<M>(maxSize), ops);
  }

  // ---------------------------------------------------------------- ... exactly as long as the store is sound

  lemma {:induction false} RunAppend<M>(s: Store<M>, a: seq<Op<M>>, b: seq<Op<M>>)
    ensures Run(s, a + b) == Run(Run(s, a), b)
    ensures AllHonest(s, a + b) <==> AllHonest(s, a) && AllHonest(Run(s, a), b)
    decreases |a|
  {
    hide Step, Honest;
    if a == [] {
      assert a + b == b;
    } else {
      assert (a + b)[1..] == a[1..] + b;
      RunAppend(Step(s, a[0]), a[1..], b);
    }
  }

  function Takes<M>(made: M, k: nat): seq<Op<M>> {
    if k == 0 then [] else [Take(made)] + Takes(made, k - 1)
  }

  /** The first k idle messages have been taken. */
  ghost predicate Drains<M>(s: Store<M>, d: Store<M>, k: nat)
    requires k <= |s.free|
  {
    && d.data == s.data && d.hand == s.hand + s.free[..k] && |d.last| == |d.hand| && |s.last| == |s.hand|
    && d.last[..|s.hand|] == s.last
    && (forall t :: |s.hand| <= t < |s.hand| + k ==> t in d.open && d.last[t] == [])
    && s.open <= d.open
  }

  lemma DrainsOneMore<M>(s: Store<M>, made: M, d: Store<M>, k: nat)
    requires WellFormed(s) && 0 < k <= |s.free| && Drains(Step(s, Take(made)), d, k - 1)
    ensures Drains(s, d, k)
  {
    var s' := Step(s, Take(made));
    assert s.free[..k] == [s.free[0]] + s'.free[..k - 1];
    assert d.hand == s.hand + s.free[..k];
    assert d.last[..|s.hand|] == d.last[..|s'.hand|][..|s.hand|];
    assert d.last[|s.hand|] == d.last[..|s'.hand|][|s.hand|];
  }

  lemma {:induction false} Drained<M>(s: Store<M>, made: M, k: nat)
    requires WellFormed(s) && k <= |s.free|
    ensures AllHonest(s, Takes(made, k)) && Drains(s, Run(s, Takes(made, k)), k)
    decreases k
  {
    if k > 0 {
      assert Takes(made, k)[0] == Take(made) && Takes(made, k)[1..] == Takes(made, k - 1);
      StepFormed(s, Take(made));
      Drained(Step(s, Take(made)), made, k - 1);
      DrainsOneMore(s, made, Run(Step(s, Take(made)), Takes(made, k - 1)), k);
      hide Step, Drains;
    }
  }

  ghost predicate Breaks<M>(s: Store<M>, ops: seq<Op<M>>)
    requires WellFormed(s)
  {
    RunFormed(s, ops);
    AllHonest(s, ops) && !OwnData(Run(s, ops))
  }

  /** One of two holders of the same message spoils it for the other. */
  lemma SharedBreaks<M>(s: Store<M>, t: nat, u: nat)
    requires WellFormed(s) && t in s.open && u in s.open && t != u && s.hand[t] == s.hand[u]
    ensures Breaks(s, [Fill(t, s.last[u] + [0])])
  {
    var ops: seq<Op<M>> := [Fill(t, s.last[u] + [0])];
    var d := Step(s, ops[0]);
    assert ops[1..] == [];
    assert Run(s, ops) == d;
    StepFormed(s, ops[0]);
    assert d.data[d.hand[u]] == s.last[u] + [0] && |s.last[u] + [0]| > |d.last[u]|;
  }

  /** After k takes it is so. */
  lemma SharedLater<M>(s: Store<M>, made: M, k: nat, t: nat, u: nat) returns (ops: seq<Op<M>>)
    requires WellFormed(s) && k <= |s.free|
    requires var d := Run(s, Takes(made, k)); t in d.open && u in d.open && t != u
    requires var hand := s.hand + s.free[..k]; t < |hand| && u < |hand| && hand[t] == hand[u]
    ensures Breaks(s, ops)
  {
    Drained(s, made, k);
    RunFormed(s, Takes(made, k));
    var d := Run(s, Takes(made, k));
    SharedBreaks(d, t, u);
    var fill := [Fill(t, d.last[u] + [0])];
    ops := Takes(made, k) + fill;
    RunAppend(s, Takes(made, k), fill);
  }

  lemma IdleTwiceBreaks<M>(s: Store<M>, i: nat, j: nat) returns (ops: seq<Op<M>>)
    requires WellFormed(s) && i < j < |s.free| && s.free[i] == s.free[j]
    ensures Breaks(s, ops)
  {
    hide Breaks, Run, AllHonest, Step;
    Drained(s, s.free[0], j + 1);
    ops := SharedLater(s, s.free[0], j + 1, |s.hand| + i, |s.hand| + j);
  }

  lemma HeldAndIdleBreaks<M>(s: Store<M>, t: nat, i: nat) returns (ops: seq<Op<M>>)
    requires WellFormed(s) && t in s.open && i < |s.free| && s.hand[t] == s.free[i]
    ensures Breaks(s, ops)
  {
    hide Breaks, Run, AllHonest, Step;
    Drained(s, s.free[0], i + 1);
    ops := SharedLater(s, s.free[0], i + 1, t, |s.hand| + i);
  }

  lemma DirtyBreaks<M>(s: Store<M>, i: nat) returns (ops: seq<Op<M>>)
    requires WellFormed(s) && i < |s.free| && s.data[s.free[i]] != []
    ensures Breaks(s, ops)
  {
    hide Run, AllHonest, Step;
    Drained(s, s.free[0], i + 1);
    ops := Takes(s.free[0], i + 1);
    RunFormed(s, ops);
    assert |s.hand| + i in Run(s, ops).open;
  }

  lemma UnsoundBreaks<M>(s: Store<M>) returns (ops: seq<Op<M>>)
    requires WellFormed(s) && !Sound(s)
    ensures Breaks(s, ops)
  {
    hide Breaks;
    if i, j :| 0 <= i < j < |s.free| && s.free[i] == s.free[j] {
      ops := IdleTwiceBreaks(s, i, j);
    } else if i :| 0 <= i < |s.free| && s.data[s.free[i]] != [] {
      ops := DirtyBreaks(s, i);
    } else if t, i :| t in s.open && 0 <= i < |s.free| && s.hand[t] == s.free[i] {
      ops := HeldAndIdleBreaks(s, t, i);
    } else {
      var t, u :| t in s.open && u in s.open && t != u && s.hand[t] == s.hand[u];
      SharedBreaks(s, t, u);
      ops := [Fill(t, s.last[u] + [0])];
    }
  }

  /** As long as everybody finds his own data, this stays so whatever the holders do next, iff the store is
      sound. */
  lemma OwnershipExact<M(!new)>(s: Store<M>)
    requires WellFormed(s) && OwnData(s)
    ensures (forall ops: seq<Op<M>> :: !Breaks(s, ops)) <==> Sound(s)
  {
    if Sound(s) {
      forall ops: seq<Op<M>> ensures !Breaks(s, ops) {
        if AllHonest(s, ops) {
          RunSound(s, ops);
        }
      }
    } else {
      var ops := UnsoundBreaks(s);
    }
  }

  // ---------------------------------------------------------------- a second Put

  predicate Full<M(==)>(s: Store<M>) {
    |s.free| >= s.maxSize
  }

  /** Putting back again, under a ticket that is not open any more, is harmless iff the message is idle nowhere
      and held by nobody, or the pool is full and whoever holds it now had not set it yet. */
  lemma StalePutExact<M>(s: Store<M>, t: nat)
    requires WellFormed(s) && Sound(s) && OwnData(s) && t < |s.hand| && t !in s.open
    requires WellFormed(Step(s, Give(t)))
    ensures var s' := Step(s, Give(t));
            Sound(s') && OwnData(s') <==>
              && (forall i :: 0 <= i < |s.free| && s.free[i] == s.hand[t] ==> Full(s))
              && (forall u :: u in s.open && s.hand[u] == s.hand[t] ==> Full(s) && s.last[u] == [])
  {
    var s' := Step(s, Give(t));
    if i :| 0 <= i < |s.free| && s.free[i] == s.hand[t] && !Full(s) {
      assert s'.free[i] == s'.free[|s.free|];
    } else if u :| u in s.open && s.hand[u] == s.hand[t] && !Full(s) {
      assert u in s'.open && s'.hand[u] == s'.free[|s.free|];
    } else if u :| u in s.open && s.hand[u] == s.hand[t] && s.last[u] != [] {
      assert u in s'.open && s'.data[s'.hand[u]] != s'.last[u];
    }
  }

  /** A message put back twice goes to two holders: with room in the pool, some honest run then ends with a
      holder whose data another has overwritten. */
  lemma DoublePutBreaks<M(!new)>(s: Store<M>, t: nat)
    requires WellFormed(s) && Sound(s) && OwnData(s) && t in s.open && |s.free| + 1 < s.maxSize
    ensures var s' := Step(Step(s, Give(t)), Give(t));
            WellFormed(s') && exists ops: seq<Op<M>> :: Breaks(s', ops)
  {
    var s1 := Step(s, Give(t));
    StepFormed(s, Give(t));
    StepSound(s, Give(t));
    StepOwn(s, Give(t));
    StepFormed(s1, Give(t));
    StalePutExact(s1, t);
    assert s1.free[|s.free|] == s1.hand[t];
    var s2 := Step(s1, Give(t));
    assert s2.free[|s.free|] == s2.free[|s.free| + 1];
    var ops := UnsoundBreaks(s2);
  }

  lemma GiveIs<M>(s: Store<M>, d: Store<M>, t: nat)
    requires WellFormed(s) && t < |s.hand|
    requires d.maxSize == s.maxSize && d.created == s.created && d.hand == s.hand && d.last == s.last
    requires d.data == s.data[s.hand[t] := []] && d.open == s.open - {t}
    requires d.free == if |s.free| < s.maxSize then s.free + [s.hand[t]] else s.free
    ensures d == Step(s, Give(t)) && WellFormed(d)
  {
    StepFormed(s, Give(t));
  }

  // ---------------------------------------------------------------- the pool of messages

  /** `known` are all messages the pool has made. */
  class MessagePool {
    const pool: GenericPool<Message>

    ghost var known: set<Message>
    ghost var hand: seq<Message>
    ghost var open: set<nat>
    ghost var last: seq<Bytes>

    ghost function Arrays(): set<array<byte>>
      reads this`known, known
    {
      set m | m in known :: m.dataArray
    }

    ghost predicate Valid()
      reads this, pool, known, Arrays()
    {
      pool.Valid() && Separate(known) && WellFormed(View())
    }

    ghost function Contents(): map<Message, Bytes>
      requires Separate(known)
      reads this`known, known, Arrays()
    {
      map m | m in known :: m.Data()
    }

    ghost function View(): Store<Message>
      requires Separate(known)
      reads this, pool, known, Arrays()
    {
      Store(pool.maxSize, pool.created, pool.pool, Contents(), hand, open, last)
    }

    constructor (maxSize: nat)
      ensures Valid() && View() == Empty(maxSize) && fresh(pool)
    {
      pool := new GenericPool<Message>(maxSize);
      known, hand, open, last := {}, [], {}, [];
      new;
      assert Contents() == map[];
    }

    /** Books a message handed out, one of the pool's or a new one. */
    ghost method Book(m: Message)
      requires Separate(known) && m.Valid()
      requires m !in known ==> m.Data() == [] && forall n :: n in known ==> n.buf != m.buf
      modifies this`known, this`hand, this`open, this`last
      ensures Separate(known) && known == old(known) + {m}
      ensures hand == old(hand) + [m] && open == old(open) + {|old(hand)|} && last == old(last) + [[]]
      ensures Contents() == if m in old(known) then old(Contents()) else old(Contents())[m := []]
    {
      known := known + {m};
      hand, open, last := hand + [m], open + {|hand|}, last + [[]];
      assert Contents() == if m in old(known) then old(Contents()) else old(Contents())[m := []];
    }

    /** The pool has handed out m, out of the store `before`. */
    ghost predicate Drew(before: Store<Message>, m: Message)
      reads this, pool
    {
      && before.maxSize == pool.maxSize && before.hand == hand && before.open == open && before.last == last
      && (if before.free != []
          then m == before.free[0] && pool.pool == before.free[1..] && pool.created == before.created
          else m !in before.data && pool.pool == []
               && pool.created == if before.created < before.maxSize then before.created + 1 else before.created)
    }

    ghost method Finish(before: Store<Message>, m: Message)
      requires Separate(known) && m.Valid() && WellFormed(before) && Contents() == before.data && Drew(before, m)
      requires m !in known ==> m.Data() == [] && forall n :: n in known ==> n.buf != m.buf
      modifies this`known, this`hand, this`open, this`last
      ensures Separate(known) && m in known && View() == Step(before, Take(m)) && hand == old(hand) + [m]
    {
      assert m in known <==> before.free != [];
      hide WellFormed, Contents;
      Book(m);
    }

    /** Nobody puts a message back while this call waits for one. */
    method GetMessage() returns (m: Message)
      requires Valid()
      modifies this, pool
      ensures Valid() && m in known && View() == Step(old(View()), Take(m))
      ensures hand == old(hand) + [m]
    {
      ghost var before := View();
      assert before.free != [] ==> before.free[0] in known;
      hide WellFormed, GetSteps, Balanced, FirstInFirstOut, Step, Contents;
      var made := NewOne(known);
      assert Contents() == before.data;
      m := pool.Get(made, None);
      assert Contents() == before.data;
      Finish(before, m);
      StepFormed(before, Take(m));
    }

    /** `m.SetData(src[lo..hi])` by whoever got m under ticket t. */
    method FillMessage(ghost t: nat, m: Message, src: array<byte>, lo: nat, hi: nat)
      requires Valid() && t < |hand| && hand[t] == m && lo <= hi <= src.Length
      modifies this`last, m, m.buf
      ensures Valid() && View() == Step(old(View()), Fill(t, old(src[lo..hi])))
    {
      ghost var before, bytes := View(), src[lo..hi];
      StepFormed(before, Fill(t, bytes));
      assert m in before.data && |before.last| == |before.hand|;
      hide WellFormed;
      SetOne(known, m, src, lo, hi);
      last := last[t := bytes];
      assert Contents() == before.data[m := bytes];
    }

    method Clear(m: Message)
      requires Separate(known) && m in known
      modifies m
      ensures Separate(known) && Contents() == old(Contents())[m := []]
    {
      ResetOne(known, m);
      assert Contents() == old(Contents())[m := []];
    }

    /** `m.Reset()` by whoever got m under ticket t: for the data it is a fill with nothing. */
    method ResetMessage(ghost t: nat, m: Message)
      requires Valid() && t < |hand| && hand[t] == m
      modifies this`last, m
      ensures Valid() && View() == Step(old(View()), Fill(t, []))
    {
      ghost var before := View();
      StepFormed(before, Fill(t, []));
      assert m in before.data && |before.last| == |before.hand|;
      hide WellFormed;
      Clear(m);
      last := last[t := []];
    }

    /** Books a message put back under ticket t. */
    ghost method Return(before: Store<Message>, t: nat)
      requires Separate(known) && pool.Valid() && WellFormed(before) && t < |hand|
      requires before.maxSize == pool.maxSize && before.created == pool.created
      requires before.hand == hand && before.open == open && before.last == last
      requires Contents() == before.data[hand[t] := []]
      requires pool.pool == if |before.free| < before.maxSize then before.free + [hand[t]] else before.free
      modifies this`open
      ensures Valid() && View() == Step(before, Give(t))
    {
      hide WellFormed, Step;
      open := open - {t};
      assert Contents() == old(Contents());
      GiveIs(before, View(), t);
    }

    /** Under any ticket: the pool cannot tell whether it is still open. */
    method PutMessage(ghost t: nat, m: Message)
      requires Valid() && t < |hand| && hand[t] == m
      modifies this`open, pool, m
      ensures Valid() && View() == Step(old(View()), Give(t))
    {
      ghost var before := View();
      assert m in before.data;
      hide WellFormed, Balanced, FirstInFirstOut, Next, Contents, Step, Arrays;
      Clear(m);
      hide Separate;
      pool.Put(m);
      Return(before, t);
    }
  }
}
