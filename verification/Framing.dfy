/** The wire format: a message is a 4-byte big-endian length and that many bytes; a client's message starts
    with a 4-byte message id. Reads fill their buffer or fail. */
module Framing {
  import opened Wrappers

  newtype byte = x: int | 0 <= x < 256

  type Bytes = seq<byte>

  const MAX_MESSAGE := 1024 * 1024
  const WORD := 0x1_0000_0000

  /** The four bytes of n modulo 2^32, as `PutUint32(uint32(n))` and the shifts `byte(n >> 24)`... give them. */
  function Be32(n: nat): Bytes {
    [(n / 0x100_0000 % 0x100) as byte, (n / 0x1_0000 % 0x100) as byte, (n / 0x100 % 0x100) as byte, (n % 0x100) as byte]
  }

  function FromBe32(b: Bytes): nat
    requires |b| == 4
  {
    b[0] as nat * 0x100_0000 + b[1] as nat * 0x1_0000 + b[2] as nat * 0x100 + b[3] as nat
  }

  lemma Shifts(n: nat)
    ensures n / 0x1_0000 == n / 0x100 / 0x100 && n / 0x100_0000 == n / 0x1_0000 / 0x100
  {
  }

  lemma Word(q: nat, r: nat)
    requires r < WORD
    ensures (q * WORD + r) % WORD == r
  {
  }

  lemma Be32Value(n: nat)
    ensures FromBe32(Be32(n)) == n % WORD
  {
    Shifts(n);
    var q := n / 0x100_0000 / 0x100;
    assert n == q * WORD + FromBe32(Be32(n));
    Word(q, FromBe32(Be32(n)));
  }

  lemma FromBe32Inverse(b: Bytes)
    requires |b| == 4
    ensures FromBe32(b) < WORD && Be32(FromBe32(b)) == b
  {
    var n := FromBe32(b);
    assert n / 0x100 == b[0] as nat * 0x1_0000 + b[1] as nat * 0x100 + b[2] as nat;
    assert n / 0x1_0000 == b[0] as nat * 0x100 + b[1] as nat;
    assert n / 0x100_0000 == b[0] as nat;
  }

  /** The bytes before position i are the same, and byte i is smaller. */
  predicate SmallerAt(a: Bytes, b: Bytes, i: nat)
    requires |a| == |b| == 4 && i < 4
  {
    a[..i] == b[..i] && a[i] < b[i]
  }

  /** Big-endian: the number is smaller iff, at the first byte that differs, the byte is. */
  lemma BigEndian(a: Bytes, b: Bytes)
    requires |a| == |b| == 4
    ensures FromBe32(a) < FromBe32(b) <==>
              SmallerAt(a, b, 0) || SmallerAt(a, b, 1) || SmallerAt(a, b, 2) || SmallerAt(a, b, 3)
  {
    assert a[..1] == b[..1] <==> a[0] == b[0];
    assert a[..2] == b[..2] <==> a[0] == b[0] && a[1] == b[1];
    assert a[..3] == b[..3] <==> a[0] == b[0] && a[1] == b[1] && a[2] == b[2];
  }

  function Frame(payload: Bytes): Bytes {
    Be32(|payload|) + payload
  }

  function Frames(payloads: seq<Bytes>): Bytes {
    if payloads == [] then [] else Frame(payloads[0]) + Frames(payloads[1..])
  }

  predicate Acceptable(payload: Bytes) {
    1 <= |payload| <= MAX_MESSAGE
  }

  // ---------------------------------------------------------------- the server's reader

  /** Why the read loop stopped: no four bytes of length, a length outside 1..1 MiB, or too short a body. */
  datatype Ending = NoLength | BadLength | NoBody

  datatype Decoded = Decoded(messages: seq<Bytes>, consumed: nat, ending: Ending)

  /** The first frame of a stream, or why there is none. */
  function First(stream: Bytes): Result<Bytes, Ending> {
    if |stream| < 4 then Err(NoLength)
    else
      var n := FromBe32(stream[..4]);
      if n == 0 || n > MAX_MESSAGE then Err(BadLength)
      else if |stream| < 4 + n then Err(NoBody)
      else Ok(stream[4..4 + n])
  }

  lemma CutTwice(stream: Bytes, n: nat)
    requires 4 + n <= |stream|
    ensures stream[4..4 + n] == stream[4..][..n] && stream[4 + n..] == stream[4..][n..]
  {
  }

  /** When exactly a first frame is found, and what is missing when it is not. */
  lemma FirstExact(stream: Bytes)
    ensures |stream| < 4 <==> First(stream) == Err(NoLength)
    ensures |stream| >= 4 ==>
              var n := FromBe32(stream[..4]);
              && (n < 1 || n > 1048576 <==> First(stream) == Err(BadLength))
              && (1 <= n <= 1048576 && |stream| - 4 < n <==> First(stream) == Err(NoBody))
              && (1 <= n <= 1048576 && |stream| - 4 >= n ==> First(stream) == Ok(stream[4..][..n]))
  {
    if |stream| >= 4 && |stream| - 4 >= FromBe32(stream[..4]) {
      CutTwice(stream, FromBe32(stream[..4]));
    }
  }

  function Decode(stream: Bytes): Decoded
    decreases |stream|
  {
    match First(stream)
    case Err(e) => Decoded([], 0, e)
    case Ok(m) =>
      var d := Decode(stream[4 + |m|..]);
      Decoded([m] + d.messages, 4 + |m| + d.consumed, d.ending)
  }

  lemma Cut(a: Bytes, b: Bytes)
    ensures (a + b)[..|a|] == a && (a + b)[|a|..] == b
  {
  }

  lemma FirstAfter(header: Bytes, payload: Bytes, tail: Bytes)
    requires |header| == 4 && FromBe32(header) == |payload| && Acceptable(payload)
    ensures First(header + (payload + tail)) == Ok(payload)
    ensures (header + (payload + tail))[4 + |payload|..] == tail
  {
    hide FromBe32;
    Cut(header, payload + tail);
    Cut(payload, tail);
    CutTwice(header + (payload + tail), |payload|);
  }

  /** A frame at the head of a stream is read back whole. */
  lemma FirstOfFrame(payload: Bytes, tail: Bytes)
    requires Acceptable(payload)
    ensures First(Frame(payload) + tail) == Ok(payload)
    ensures (Frame(payload) + tail)[4 + |payload|..] == tail
  {
    Be32Value(|payload|);
    FirstAfter(Be32(|payload|), payload, tail);
    Associative(Be32(|payload|), payload, tail);
    hide Be32, FromBe32, First;
  }

  lemma FirstIsFrame(stream: Bytes)
    requires First(stream).Ok?
    ensures Acceptable(First(stream).value)
    ensures stream == Frame(First(stream).value) + stream[4 + |First(stream).value|..]
  {
    FromBe32Inverse(stream[..4]);
  }

  /** One more message before a decoded stream. */
  function Prepend(m: Bytes, d: Decoded): Decoded {
    Decoded([m] + d.messages, |Frame(m)| + d.consumed, d.ending)
  }

  lemma DecodeFrame(payload: Bytes, tail: Bytes)
    requires Acceptable(payload)
    ensures Decode(Frame(payload) + tail) == Prepend(payload, Decode(tail))
  {
    FirstOfFrame(payload, tail);
  }

  lemma Associative(a: Bytes, b: Bytes, c: Bytes)
    ensures (a + b) + c == a + (b + c)
  {
  }

  lemma FramesCons(payloads: seq<Bytes>, tail: Bytes)
    requires payloads != []
    ensures Frames(payloads) + tail == Frame(payloads[0]) + (Frames(payloads[1..]) + tail)
    ensures |Frames(payloads)| == |Frame(payloads[0])| + |Frames(payloads[1..])|
  {
    Associative(Frame(payloads[0]), Frames(payloads[1..]), tail);
  }

  function PrependAll(ms: seq<Bytes>, d: Decoded): Decoded {
    Decoded(ms + d.messages, |Frames(ms)| + d.consumed, d.ending)
  }

  lemma PrependCons(ms: seq<Bytes>, d: Decoded)
    requires ms != []
    ensures PrependAll(ms, d) == Prepend(ms[0], PrependAll(ms[1..], d))
  {
    FramesCons(ms, []);
    assert ms + d.messages == [ms[0]] + (ms[1..] + d.messages);
  }

  /** Decoding what was framed gives it back, whatever follows. */
  lemma {:induction false} DecodeFrames(payloads: seq<Bytes>, tail: Bytes)
    requires forall i :: 0 <= i < |payloads| ==> Acceptable(payloads[i])
    ensures Decode(Frames(payloads) + tail) == PrependAll(payloads, Decode(tail))
  {
    if payloads == [] {
      assert Frames(payloads) + tail == tail;
      assert [] + Decode(tail).messages == Decode(tail).messages;
    } else {
      calc {
        Decode(Frames(payloads) + tail);
      == { FramesCons(payloads, tail); }
        Decode(Frame(payloads[0]) + (Frames(payloads[1..]) + tail));
      == { DecodeFrame(payloads[0], Frames(payloads[1..]) + tail); }
        Prepend(payloads[0], Decode(Frames(payloads[1..]) + tail));
      == { DecodeFrames(payloads[1..], tail); }
        Prepend(payloads[0], PrependAll(payloads[1..], Decode(tail)));
      == { PrependCons(payloads, Decode(tail)); }
        PrependAll(payloads, Decode(tail));
      }
    }
  }

  /** On every stream the messages have lengths 1..1 MiB, framing them again gives exactly the bytes
      consumed, and what follows them starts with no complete frame, for the reason reported. */
  lemma {:induction false} DecodeSound(stream: Bytes)
    ensures var d := Decode(stream);
            && d.consumed <= |stream|
            && Frames(d.messages) == stream[..d.consumed]
            && (forall i :: 0 <= i < |d.messages| ==> Acceptable(d.messages[i]))
            && First(stream[d.consumed..]) == Err(d.ending)
    decreases |stream|
  {
    var d := Decode(stream);
    if First(stream).Ok? {
      var m := First(stream).value;
      var rest := stream[4 + |m|..];
      FirstIsFrame(stream);
      DecodeSound(rest);
      assert d.messages[1..] == Decode(rest).messages;
      assert stream[d.consumed..] == rest[Decode(rest).consumed..];
      assert stream[..d.consumed] == Frame(m) + rest[..Decode(rest).consumed];
    } else {
      assert stream[0..] == stream;
    }
  }

  /** Nothing framed is missed: acceptable messages framed at the head of a stream are the first ones decoded. */
  lemma DecodeComplete(payloads: seq<Bytes>, stream: Bytes)
    requires Frames(payloads) <= stream && forall i :: 0 <= i < |payloads| ==> Acceptable(payloads[i])
    ensures payloads <= Decode(stream).messages
  {
    var tail := stream[|Frames(payloads)|..];
    assert stream == Frames(payloads) + tail;
    DecodeFrames(payloads, tail);
    assert Decode(stream).messages == payloads + Decode(tail).messages;
  }

  // ---------------------------------------------------------------- message ids

  datatype Message = Message(id: nat, body: Bytes)

  predicate Sendable(m: Message) {
    m.id < WORD && 4 + |m.body| <= MAX_MESSAGE
  }

  function Payload(m: Message): Bytes {
    Be32(m.id) + m.body
  }

  function Payloads(ms: seq<Message>): seq<Bytes> {
    seq(|ms|, i requires 0 <= i < |ms| => Payload(ms[i]))
  }

  /** How the gateway splits a payload. */
  function Split(data: Bytes): Result<Message, string> {
    if |data| < 4 then Err("message too short") else Ok(Message(FromBe32(data[..4]), data[4..]))
  }

  lemma SplitPayload(m: Message)
    requires m.id < WORD
    ensures Split(Payload(m)) == Ok(m)
  {
    Be32Value(m.id);
    assert Payload(m)[..4] == Be32(m.id);
  }

  lemma PayloadOfSplit(data: Bytes)
    requires Split(data).Ok?
    ensures Payload(Split(data).value) == data && Split(data).value.id < WORD
  {
    FromBe32Inverse(data[..4]);
  }

  /** What the client sends is what the gateway handles: the same ids and bodies, in order, and nothing else. */
  lemma ClientToGateway(ms: seq<Message>)
    requires forall i :: 0 <= i < |ms| ==> Sendable(ms[i])
    ensures var stream := Frames(Payloads(ms));
            && Decode(stream).messages == Payloads(ms) && Decode(stream).consumed == |stream|
            && forall i :: 0 <= i < |ms| ==> Split(Decode(stream).messages[i]) == Ok(ms[i])
  {
    assert Frames(Payloads(ms)) + [] == Frames(Payloads(ms));
    DecodeFrames(Payloads(ms), []);
    forall i | 0 <= i < |ms| ensures Split(Payloads(ms)[i]) == Ok(ms[i]) {
      SplitPayload(ms[i]);
    }
  }

  /** A framed payload is read back iff its length is within 1..1 MiB. (The length field wraps at 2^32, so a
      longer payload could pass for a shorter one, but never for itself.) */
  lemma FrameExact(payload: Bytes)
    ensures First(Frame(payload)) == Ok(payload) <==> 1 <= |payload| <= 1048576
  {
    Be32Value(|payload|);
    assert Frame(payload)[..4] == Be32(|payload|);
    if Acceptable(payload) {
      assert Frame(payload) + [] == Frame(payload);
      FirstOfFrame(payload, []);
    } else if First(Frame(payload)).Ok? {
      assert |First(Frame(payload)).value| == |payload| % WORD != |payload| || |payload| == 0 || |payload| > MAX_MESSAGE;
    }
  }

  // ---------------------------------------------------------------- a connection's two byte streams

  /** `incoming` is what the peer has sent and this side has not read. */
  class Wire {
    var incoming: Bytes
    var outgoing: Bytes

    constructor (incoming: Bytes)
      ensures this.incoming == incoming && outgoing == []
    {
      this.incoming := incoming;
      outgoing := [];
    }

    /** Fills the buffer, or fails and leaves the stream. */
    method Read(buf: array<byte>) returns (ok: bool)
      modifies this`incoming, buf
      ensures ok == (buf.Length <= |old(incoming)|)
      ensures ok ==> buf[..] == old(incoming)[..buf.Length] && incoming == old(incoming)[buf.Length..]
      ensures !ok ==> incoming == old(incoming)
    {
      ok := buf.Length <= |incoming|;
      if ok {
        forall i | 0 <= i < buf.Length {
          buf[i] := incoming[i];
        }
        incoming := incoming[buf.Length..];
      }
    }

    method Write(buf: array<byte>)
      modifies this`outgoing
      ensures outgoing == old(outgoing) + buf[..]
    {
      outgoing := outgoing + buf[..];
    }
  }

  method PutUint32(buf: array<byte>, n: nat)
    requires buf.Length >= 4
    modifies buf
    ensures buf[..] == Be32(n) + old(buf[4..])
  {
    buf[0] := (n / 0x100_0000 % 0x100) as byte;
    buf[1] := (n / 0x1_0000 % 0x100) as byte;
    buf[2] := (n / 0x100 % 0x100) as byte;
    buf[3] := (n % 0x100) as byte;
  }

  /** A four-byte header followed by a copy of `body`, in one buffer. */
  method Prefixed(header: nat, body: Bytes) returns (buf: array<byte>)
    ensures fresh(buf) && buf[..] == Be32(header) + body
  {
    buf := new byte[4 + |body|];
    PutUint32(buf, header);
    forall i | 0 <= i < |body| {
      buf[4 + i] := body[i];
    }
    assert buf[..4] == Be32(header) && buf[4..] == body;
    assert buf[..] == buf[..4] + buf[4..];
  }

  /** The gateway's response writer. */
  method SendResponse(wire: Wire, response: Bytes)
    modifies wire`outgoing
    ensures wire.outgoing == old(wire.outgoing) + Frame(response)
  {
    var message := Prefixed(|response|, response);
    wire.Write(message);
  }

  /** The client's sender: two writes, the length and then id and body. */
  method SendMessage(wire: Wire, connected: bool, msgId: nat, data: Bytes) returns (ok: bool)
    modifies wire`outgoing
    ensures ok == connected
    ensures wire.outgoing == old(wire.outgoing) + if ok then Frame(Payload(Message(msgId, data))) else []
  {
    if !connected {
      return false;
    }
    var message := Prefixed(msgId, data);
    var lengthBytes := Prefixed(message.Length, []);
    wire.Write(lengthBytes);
    wire.Write(message);
    Associative(old(wire.outgoing), lengthBytes[..], message[..]);
    assert lengthBytes[..] + message[..] == Frame(message[..]);
    ok := true;
  }

  datatype ReceiveError = NotConnected | NoFrame(ending: Ending)

  /** The client's receiver: the first frame, by the same rules as the server's reader. */
  method ReceiveMessage(wire: Wire, connected: bool) returns (result: Result<Bytes, ReceiveError>)
    modifies wire`incoming
    ensures result == if !connected then Err(NotConnected)
                      else match First(old(wire.incoming))
                           case Ok(m) => Ok(m)
                           case Err(e) => Err(NoFrame(e))
    ensures result.Ok? ==> wire.incoming == old(wire.incoming)[4 + |result.value|..]
  {
    if !connected {
      return Err(NotConnected);
    }
    var lengthBytes := new byte[4];
    var ok := wire.Read(lengthBytes);
    if !ok {
      return Err(NoFrame(NoLength));
    }
    var msgLen := FromBe32(lengthBytes[..]);
    if msgLen == 0 || msgLen > MAX_MESSAGE {
      return Err(NoFrame(BadLength));
    }
    var message := new byte[msgLen];
    ok := wire.Read(message);
    if !ok {
      return Err(NoFrame(NoBody));
    }
    assert old(wire.incoming)[4..][..msgLen] == old(wire.incoming)[4..4 + msgLen];
    result := Ok(message[..]);
  }

  /** The loop of `handleConnection`. `turns` is the number of loop tests at which the server is still
      running; `delivered` is what reached HandleMessage. */
  method HandleConnection(wire: Wire, turns: nat) returns (delivered: seq<Bytes>)
    modifies wire`incoming
    ensures var all := Decode(old(wire.incoming)).messages;
            delivered == if turns <= |all| then all[..turns] else all
  {
    delivered := [];
    ghost var stream := wire.incoming;
    var turn := 0;
    while turn < turns
      invariant turn == |delivered| <= turns
      invariant Decode(stream).messages == delivered + Decode(wire.incoming).messages
    {
      ghost var here := wire.incoming;
      var lengthBuf := new byte[4];
      var ok := wire.Read(lengthBuf);
      if !ok {
        break;
      }
      var msgLen := FromBe32(lengthBuf[..]);
      if msgLen == 0 || msgLen > MAX_MESSAGE {
        assert First(here).Err?;
        return;
      }
      var msgBuf := new byte[msgLen];
      ok := wire.Read(msgBuf);
      if !ok {
        assert First(here).Err?;
        return;
      }
      assert here[4..][..msgLen] == here[4..4 + msgLen] && here[4..][msgLen..] == here[4 + msgLen..];
      assert First(here) == Ok(msgBuf[..]);
      assert delivered + Decode(here).messages == delivered + [msgBuf[..]] + Decode(wire.incoming).messages;
      delivered := delivered + [msgBuf[..]];
      turn := turn + 1;
    }
  }
}
