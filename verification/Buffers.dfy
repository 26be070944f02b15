/** Reusable message buffers and the size classes of the byte-buffer pool. A slice is modelled by its backing
    array and its length; messages keep their slices at the start of the array. */
module Buffers {
  import opened Wrappers

  newtype byte = x: int | 0 <= x < 256

  const LARGE := 4096
  const INITIAL_CAPACITY := 1024

  // ---------------------------------------------------------------- capacities on values

  datatype Room = Room(capacity: nat, length: nat)

  function SetRoom(r: Room, n: nat): Room {
    Room(if r.capacity < n then n else r.capacity, n)
  }

  function ResetRoom(r: Room): Room {
    if r.length > LARGE then Room(INITIAL_CAPACITY, 0) else Room(r.capacity, 0)
  }

  /** SetData calls of the given lengths, one after the other. */
  function SetAll(r: Room, lengths: seq<nat>): Room
    decreases |lengths|
  {
    if lengths == [] then r else SetAll(SetRoom(r, lengths[0]), lengths[1..])
  }

  /** One use of a message between two visits to the pool. */
  function Cycle(r: Room, lengths: seq<nat>): Room {
    ResetRoom(SetAll(r, lengths))
  }

  predicate AllSmall(lengths: seq<nat>) {
    forall i :: 0 <= i < |lengths| ==> lengths[i] <= LARGE
  }

  /** No length set is large, or the last one is. */
  predicate Tame(lengths: seq<nat>) {
    AllSmall(lengths) || lengths[|lengths| - 1] > LARGE
  }

  lemma {:induction false} SetAllRoom(r: Room, lengths: seq<nat>)
    ensures var s := SetAll(r, lengths);
            && s.length == (if lengths == [] then r.length else lengths[|lengths| - 1])
            && (s.capacity <= LARGE <==> r.capacity <= LARGE && AllSmall(lengths))
    decreases |lengths|
  {
    if lengths != [] {
      SetAllRoom(SetRoom(r, lengths[0]), lengths[1..]);
      assert AllSmall(lengths) <==> lengths[0] <= LARGE && AllSmall(lengths[1..]) by {
        assert forall i :: 0 <= i < |lengths[1..]| ==> lengths[1..][i] == lengths[i + 1];
        assert forall i :: 1 <= i < |lengths| ==> lengths[i] == lengths[1..][i - 1];
      }
    }
  }

  /** A message goes back to the pool with at most 4096 bytes of capacity iff no large length was set during
      the cycle or the last one was large: a large one followed by a small one is kept. */
  lemma KeptCapacityExact(r: Room, lengths: seq<nat>)
    requires r.capacity <= LARGE && r.length == 0
    ensures Cycle(r, lengths).capacity <= 4096 <==>
              || (forall i :: 0 <= i < |lengths| ==> lengths[i] <= 4096)
              || lengths[|lengths| - 1] > 4096
    ensures Cycle(r, lengths).length == 0
  {
    SetAllRoom(r, lengths);
  }

  function Cycles(r: Room, uses: seq<seq<nat>>): Room
    decreases |uses|
  {
    if uses == [] then r else Cycles(Cycle(r, uses[0]), uses[1..])
  }

  /** In particular one SetData per cycle, of any length, never lets the pool keep a large buffer. */
  lemma {:induction false} OneSetPerCycle(r: Room, uses: seq<seq<nat>>)
    requires r.capacity <= LARGE && r.length == 0 && forall i :: 0 <= i < |uses| ==> |uses[i]| <= 1
    ensures Cycles(r, uses).capacity <= 4096
    decreases |uses|
  {
    if uses != [] {
      KeptCapacityExact(r, uses[0]);
      OneSetPerCycle(Cycle(r, uses[0]), uses[1..]);
    }
  }

  // ---------------------------------------------------------------- the message object

  class Message {
    var kind: string
    var buf: array<byte>
    var bufLen: nat
    var dataArray: array<byte>
    var dataLen: nat

    ghost predicate Valid()
      reads this
    {
      bufLen <= buf.Length && dataLen <= dataArray.Length && (dataLen > 0 ==> dataArray == buf)
    }

    function Data(): seq<byte>
      requires dataLen <= dataArray.Length
      reads this, dataArray
    {
      dataArray[..dataLen]
    }

    function Extent(): Room
      reads this
    {
      Room(buf.Length, bufLen)
    }

    constructor ()
      ensures Valid() && Data() == [] && Extent() == Room(1024, 0) && fresh(buf)
    {
      kind := "";
      var b := new byte[INITIAL_CAPACITY];
      buf, bufLen := b, 0;
      dataArray, dataLen := b, 0;
    }

    /** The argument is src[lo..hi], possibly a part of this message's own buffer; the copy then reads the
        old contents, as Go's does. */
    method SetData(src: array<byte>, lo: nat, hi: nat)
      requires Valid() && lo <= hi <= src.Length
      modifies this, buf
      ensures Valid() && Data() == old(src[lo..hi]) && kind == old(kind)
      ensures Extent() == SetRoom(old(Extent()), hi - lo)
      ensures buf == old(buf) || fresh(buf)
    {
      var n := hi - lo;
      if buf.Length < n {
        buf := new byte[n];
      }
      bufLen := n;
      forall i | 0 <= i < n {
        buf[i] := src[lo + i];
      }
      dataArray, dataLen := buf, bufLen;
    }

    method Reset()
      requires Valid()
      modifies this
      ensures Valid() && Data() == [] && kind == ""
      ensures Extent() == ResetRoom(old(Extent())) == Room(if old(bufLen) > 4096 then 1024 else old(buf.Length), 0)
      ensures buf == old(buf) || fresh(buf)
    {
      kind := "";
      dataLen := 0;
      if bufLen > LARGE {
        buf := new byte[INITIAL_CAPACITY];
      }
      bufLen := 0;
    }
  }

  /** Messages in use have buffers of their own. */
  ghost predicate Separate(live: set<Message>)
    reads live
  {
    && (forall m :: m in live ==> m.Valid())
    && (forall m, n :: m in live && n in live && m != n ==> m.buf != n.buf)
  }

  /** A message that the pool's factory makes has a buffer shared with nobody. */
  method NewOne(ghost live: set<Message>) returns (m: Message)
    requires Separate(live)
    ensures m !in live && Separate(live + {m}) && m.Data() == []
  {
    m := new Message();
  }

  /** Setting one live message leaves the data of all others as it was, and all of them separate. */
  method SetOne(ghost live: set<Message>, m: Message, src: array<byte>, lo: nat, hi: nat)
    requires m in live && Separate(live) && lo <= hi <= src.Length
    modifies m, m.buf
    ensures Separate(live) && m.Data() == old(src[lo..hi])
    ensures forall n :: n in live && n != m ==> n.Valid() && n.Data() == old(n.Data())
  {
    m.SetData(src, lo, hi);
  }

  method ResetOne(ghost live: set<Message>, m: Message)
    requires m in live && Separate(live)
    modifies m
    ensures Separate(live) && m.Data() == []
    ensures forall n :: n in live && n != m ==> n.Valid() && n.Data() == old(n.Data())
  {
    m.Reset();
  }

  // ---------------------------------------------------------------- size classes

  const SIZES: seq<nat> := [64, 256, 1024, 4096, 16384, 65536]

  /** A byte slice: which array it belongs to, its length and its capacity. */
  datatype Slice = Slice(id: nat, length: nat, capacity: nat)

  /** The least size class that holds n bytes. */
  function ClassOf(n: nat): (c: Option<nat>)
    ensures c.Some? ==> c.value in SIZES && n <= c.value && forall s :: s in SIZES && n <= s ==> c.value <= s
    ensures c.None? <==> n > 65536
    ensures c.Some? ==> c.value in [64, 256, 1024, 4096, 16384, 65536]
    ensures c.None? <==> forall s :: s in SIZES ==> s < n
  {
    if n <= 64 then Some(64) else if n <= 256 then Some(256) else if n <= 1024 then Some(1024)
    else if n <= 4096 then Some(4096) else if n <= 16384 then Some(16384) else if n <= 65536 then Some(65536)
    else None
  }

  class ByteBufferPool {
    var pools: map<nat, seq<Slice>>

    /** Each sub-pool holds slices of exactly its capacity, whatever was done to their length. */
    ghost predicate Valid()
      reads this
    {
      && (forall s :: s in pools <==> s in SIZES)
      && (forall s :: s in pools ==> forall i :: 0 <= i < |pools[s]| ==> pools[s][i].capacity == s)
    }

    constructor ()
      ensures Valid() && forall s :: s in pools ==> pools[s] == []
    {
      pools := map[64 := [], 256 := [], 1024 := [], 4096 := [], 16384 := [], 65536 := []];
    }

    /** `reuse` is the index of the pooled slice that sync.Pool hands out, if it hands one out; `id` names a
        new array. */
    method GetBuffer(size: nat, reuse: Option<nat>, id: nat) returns (buf: Slice)
      requires Valid()
      modifies this
      ensures Valid() && buf.length == size <= buf.capacity
      ensures buf.capacity == match ClassOf(size) case Some(c) => c case None => size
      ensures ClassOf(size).None? ==> pools == old(pools) && buf.id == id
      ensures ClassOf(size).Some? ==>
                var c := ClassOf(size).value;
                if reuse.Some? && reuse.value < |old(pools)[c]|
                then buf.id == old(pools)[c][reuse.value].id
                     && pools == old(pools)[c := old(pools)[c][..reuse.value] + old(pools)[c][reuse.value + 1..]]
                else buf.id == id && pools == old(pools)
    {
      for i := 0 to |SIZES|
        invariant pools == old(pools) && forall j :: 0 <= j < i ==> SIZES[j] < size
      {
        var poolSize := SIZES[i];
        if size <= poolSize {
          assert ClassOf(size) == Some(poolSize);
          hide ClassOf;
          if reuse.Some? && reuse.value < |pools[poolSize]| {
            var k := reuse.value;
            buf := pools[poolSize][k].(length := size);
            pools := pools[poolSize := pools[poolSize][..k] + pools[poolSize][k + 1..]];
          } else {
            buf := Slice(id, size, poolSize);
          }
          return;
        }
      }
      buf := Slice(id, size, size);
    }

    /** The capacity decides: a slice is kept in the sub-pool of exactly its capacity, else dropped. */
    method PutBuffer(buf: Slice)
      requires Valid()
      modifies this
      ensures Valid()
      ensures pools == if buf.capacity in SIZES then old(pools)[buf.capacity := old(pools)[buf.capacity] + [buf]]
                       else old(pools)
    {
      for i := 0 to |SIZES|
        invariant pools == old(pools) && forall j :: 0 <= j < i ==> SIZES[j] != buf.capacity
      {
        if buf.capacity == SIZES[i] {
          pools := pools[SIZES[i] := pools[SIZES[i]] + [buf]];
          return;
        }
      }
    }

    /** The sub-pools when a buffer for `size` bytes is out: without the pooled one at `reuse`, if it was that. */
    ghost function Lent(size: nat, reuse: Option<nat>): map<nat, seq<Slice>>
      requires Valid()
      reads this
    {
      match ClassOf(size)
      case None => pools
      case Some(c) =>
        if reuse.Some? && reuse.value < |pools[c]|
        then pools[c := pools[c][..reuse.value] + pools[c][reuse.value + 1..]] else pools
    }

    /** A buffer that was not re-sliced, pooled or new, goes back to the class it came from, to the end, and the
        other classes are as they were; one beyond the classes is dropped. */
    method Borrow(size: nat, reuse: Option<nat>, id: nat) returns (buf: Slice)
      requires Valid()
      modifies this
      ensures Valid()
      ensures ClassOf(size).None? ==> pools == old(pools)
      ensures ClassOf(size).Some? ==>
                var c := ClassOf(size).value;
                && buf.capacity == c && (buf.id == id || exists s :: s in old(pools)[c] && s.id == buf.id)
                && pools == old(Lent(size, reuse))[c := old(Lent(size, reuse))[c] + [buf]]
    {
      buf := GetBuffer(size, reuse, id);
      assert pools == old(Lent(size, reuse));
      PutBuffer(buf);
    }
  }
}
