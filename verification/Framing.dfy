/** Little-endian numbers as they stand in byte buffers. */
module Bytes {
  type Byte = x: int | 0 <= x < 256

  const TWO_32 := 0x1_0000_0000

  function Value(b: Byte): (n: nat) {
    b
  }

  function Word(b: seq<Byte>): (n: nat)
    requires |b| == 4
    ensures n < TWO_32
  {
    Value(b[0]) + 0x100 * (Value(b[1]) + 0x100 * (Value(b[2]) + 0x100 * Value(b[3])))
  }

  function FromWord(n: nat): (b: seq<Byte>)
    requires n < TWO_32
    ensures |b| == 4 && Word(b) == n
  {
    var n1, n2 := n / 0x100, n / 0x100 / 0x100;
    [Low(n), Low(n1), Low(n2), Low(n2 / 0x100)]
  }

  function Low(n: nat): Byte {
    n % 0x100
  }

  lemma LowestByte(x: Byte, m: nat, y: Byte, n: nat)
    requires Value(x) + 0x100 * m == Value(y) + 0x100 * n
    ensures x == y && m == n
  {
  }

  lemma WordIsInjective(a: seq<Byte>, b: seq<Byte>)
    requires |a| == 4 && |b| == 4 && Word(a) == Word(b)
    ensures a == b
  {
    var a2, b2 := Value(a[2]) + 0x100 * Value(a[3]), Value(b[2]) + 0x100 * Value(b[3]);
    var a1, b1 := Value(a[1]) + 0x100 * a2, Value(b[1]) + 0x100 * b2;
    LowestByte(a[0], a1, b[0], b1);
    LowestByte(a[1], a2, b[1], b2);
    LowestByte(a[2], Value(a[3]), b[2], Value(b[3]));
  }

  function Long(b: seq<Byte>): (n: nat)
    requires |b| == 8
  {
    Word(b[..4]) + TWO_32 * Word(b[4..])
  }

  /** The least significant byte comes first. */
  lemma LeastFirst(b: seq<Byte>, n: nat)
    requires |b| == 8 && n < TWO_32
    ensures Word(b[..4]) == Value(b[0]) + 0x100 * Value(b[1]) + 0x1_0000 * Value(b[2]) + 0x100_0000 * Value(b[3])
    ensures Long(b) == Word(b[..4]) + 0x1_0000_0000 * Value(b[4]) + 0x100_0000_0000 * Value(b[5])
                       + 0x1_0000_0000_0000 * Value(b[6]) + 0x100_0000_0000_0000 * Value(b[7])
    ensures FromWord(n)[0] == n % 0x100 && FromWord(n)[1] == n / 0x100 % 0x100
    ensures FromWord(n)[2] == n / 0x1_0000 % 0x100 && FromWord(n)[3] == n / 0x100_0000
  {
  }
}

/** Length-prefixed native messages over a byte stream. */
module Framing {
  import opened Prelude
  import opened Bytes

  type Payload = seq<Byte>

  const MAX_MESSAGE_SIZE := 1024 * 1024

  // Why there is no further message. A stream that ends where a payload should begin reads as ended.
  datatype Ending = EndOfStream | TooLarge | Truncated

  predicate Allowed(p: Payload) {
    |p| <= MAX_MESSAGE_SIZE
  }

  function Frame(p: Payload): seq<Byte>
    requires Allowed(p)
  {
    FromWord(|p|) + p
  }

  // The next message and what follows it, or why there is none.
  datatype Next = Message(payload: Payload, rest: seq<Byte>) | NoMessage(ending: Ending)

  function Read(stream: seq<Byte>): (r: Next)
    ensures r.Message? ==> |r.rest| + 4 <= |stream| && Allowed(r.payload)
  {
    if |stream| == 0 then NoMessage(EndOfStream)
    else if |stream| < 4 then NoMessage(Truncated)
    else
      var size := Word(stream[..4]);
      if size > MAX_MESSAGE_SIZE then NoMessage(TooLarge)
      else if size > 0 && |stream| == 4 then NoMessage(EndOfStream)
      else if |stream| < 4 + size then NoMessage(Truncated)
      else Message(stream[4..4 + size], stream[4 + size..])
  }

  lemma SlicesOfRest(stream: seq<Byte>, size: nat)
    requires 4 <= |stream|
    ensures 4 + size <= |stream| ==> stream[4..4 + size] == stream[4..][..size] && stream[4 + size..] == stream[4..][size..]
  {
  }

  /** Each way a stream can end has its own shape: nothing, a lone header, a size over the limit, or something missing. */
  lemma EndingsExactly(stream: seq<Byte>)
    ensures Read(stream) == NoMessage(TooLarge) <==> |stream| >= 4 && Word(stream[..4]) > 1048576
    ensures Read(stream) == NoMessage(EndOfStream) <==>
              stream == [] || (|stream| == 4 && 0 < Word(stream[..4]) <= 1048576)
    ensures Read(stream) == NoMessage(Truncated) <==>
              0 < |stream| < 4 || (4 < |stream| < 4 + Word(stream[..4]) && Word(stream[..4]) <= 1048576)
  {
  }

  // ---- the reader and the writer ----

  class Reader {
    var rest: seq<Byte>

    constructor (stream: seq<Byte>)
      ensures rest == stream
    {
      rest := stream;
    }

    // io.ReadFull: as many bytes as asked for, or as many as there are.
    method ReadFull(n: nat) returns (b: seq<Byte>)
      modifies this
      ensures |b| == if n <= |old(rest)| then n else |old(rest)|
      ensures b == old(rest)[..|b|] && rest == old(rest)[|b|..]
    {
      var k := if n <= |rest| then n else |rest|;
      b, rest := rest[..k], rest[k..];
    }

    method ReadMessage() returns (r: Result<Payload, Ending>)
      modifies this
      ensures match Read(old(rest))
              case Message(p, after) => r == Ok(p) && rest == after
              case NoMessage(ending) => r == Err(ending)
    {
      var header := ReadFull(4);
      if |header| == 0 {
        return Err(EndOfStream);
      }
      if |header| < 4 {
        return Err(Truncated);
      }
      var size := Word(header);
      if size > MAX_MESSAGE_SIZE {
        return Err(TooLarge);
      }
      SlicesOfRest(old(rest), size);
      var payload := ReadFull(size);
      if |payload| < size {
        return Err(if |payload| == 0 then EndOfStream else Truncated);
      }
      r := Ok(payload);
    }
  }

  class Writer {
    var sent: seq<Byte>

    constructor ()
      ensures sent == []
    {
      sent := [];
    }

    // `broken` is the number of bytes the stream still takes before it fails, if it does.
    method WriteMessage(p: Payload, broken: Option<nat>) returns (ok: bool)
      modifies this
      ensures ok <==> Allowed(p) && (broken.None? || broken.value >= 4 + |p|)
      ensures ok ==> sent == old(sent) + Frame(p)
      ensures !Allowed(p) ==> sent == old(sent)
      ensures !ok && Allowed(p) ==> sent == old(sent) + Frame(p)[..broken.value]
    {
      if |p| > MAX_MESSAGE_SIZE {
        return false;
      }
      var header := FromWord(|p|);
      if broken.Some? && broken.value < 4 {
        sent := sent + header[..broken.value];
        assert Frame(p)[..broken.value] == header[..broken.value];
        return false;
      }
      sent := sent + header;
      if broken.Some? && broken.value < 4 + |p| {
        sent := sent + p[..broken.value - 4];
        assert Frame(p)[..broken.value] == header + p[..broken.value - 4];
        return false;
      }
      sent := sent + p;
      assert header + p == Frame(p);
      ok := true;
    }
  }

  // ---- round trip ----

  /** What was framed is read back, and reading stops exactly where the frame ends. */
  lemma FrameReadsBack(p: Payload, rest: seq<Byte>)
    requires Allowed(p)
    ensures Read(Frame(p) + rest) == Message(p, rest)
  {
    var stream := Frame(p) + rest;
    assert stream[..4] == FromWord(|p|);
    assert stream[4..4 + |p|] == p && stream[4 + |p|..] == rest;
  }

  /** No framing is a prefix of a different one. */
  lemma FramesArePrefixFree(p: Payload, q: Payload, x: seq<Byte>, y: seq<Byte>)
    requires Allowed(p) && Allowed(q) && Frame(p) + x == Frame(q) + y
    ensures p == q && x == y
  {
    FrameReadsBack(p, x);
    FrameReadsBack(q, y);
  }

  function Frames(messages: seq<Payload>): seq<Byte>
    requires forall p :: p in messages ==> Allowed(p)
  {
    if messages == [] then [] else Frame(messages[0]) + Frames(messages[1..])
  }

  datatype Transcript = Transcript(messages: seq<Payload>, ending: Ending, leftover: seq<Byte>)

  /** Everything a reader gets from a stream. */
  function ReadAll(stream: seq<Byte>): (t: Transcript)
    ensures forall p :: p in t.messages ==> Allowed(p)
    decreases |stream|
  {
    match Read(stream)
    case NoMessage(ending) => Transcript([], ending, stream)
    case Message(p, rest) =>
      var t := ReadAll(rest);
      t.(messages := [p] + t.messages)
  }

  /** The bytes of any sequence of allowed messages read back as exactly that sequence. */
  lemma {:induction false} FramesReadBack(messages: seq<Payload>)
    requires forall p :: p in messages ==> Allowed(p)
    ensures ReadAll(Frames(messages)) == Transcript(messages, EndOfStream, [])
    decreases |messages|
  {
    if messages != [] {
      FrameReadsBack(messages[0], Frames(messages[1..]));
      FramesReadBack(messages[1..]);
      assert [messages[0]] + messages[1..] == messages;
    }
  }

  /** Conversely every stream is the frames of what is read from it, and the bytes left over. */
  lemma {:induction false} ReadAllAccountsForAll(stream: seq<Byte>)
    ensures var t := ReadAll(stream); stream == Frames(t.messages) + t.leftover
    decreases |stream|
  {
    match Read(stream)
    case NoMessage(_) => assert [] + stream == stream;
    case Message(p, rest) =>
      ReadAllAccountsForAll(rest);
      var t := ReadAll(rest);
      FrameOfRead(stream);
      assert ([p] + t.messages)[1..] == t.messages;
      assert stream == Frame(p) + (Frames(t.messages) + t.leftover);
  }

  lemma FrameOfRead(stream: seq<Byte>)
    requires Read(stream).Message?
    ensures stream == Frame(Read(stream).payload) + Read(stream).rest
  {
    var size := Word(stream[..4]);
    WordIsInjective(stream[..4], FromWord(size));
    assert stream == stream[..4] + stream[4..4 + size] + stream[4 + size..];
  }

  /** The silent ends: nothing at all, or a whole header that announces bytes of which none came. */
  lemma EndsSilentlyExactly(stream: seq<Byte>)
    ensures Read(stream) == NoMessage(EndOfStream) <==>
              || stream == []
              || (|stream| == 4 && 0 < Word(stream) <= MAX_MESSAGE_SIZE)
  {
    if |stream| == 4 {
      assert stream[..4] == stream;
    }
  }
}
