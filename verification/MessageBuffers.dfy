/** Message buffers: a ring of bytes with one writer and one reader, from
    stream_buffer.c.

    A message is stored as its length and its bytes.  The writer moves xHead, the
    reader xTail, each only when a whole message has been copied; both work from what
    they last saw of the other's index.  A run interleaves the two at every sample of
    an index, every byte copied and every index published. */
module MessageBuffers {

  type Byte = b: int | 0 <= b < 256 witness 0

  /** sbBYTES_TO_STORE_MESSAGE_LENGTH: the length is a 32-bit size_t, low byte first. */
  const PREFIX: nat := 4
  const SIZE_LIMIT: nat := 0x1_0000_0000

  // ---------------------------------------------------------------- frames

  function Encode(n: nat): (r: seq<Byte>)
    ensures |r| == PREFIX
  {
    [n % 256, n / 256 % 256, n / 256 / 256 % 256, n / 256 / 256 / 256 % 256]
  }

  function Decode(b: seq<Byte>): nat
    requires |b| == PREFIX
  {
    var b0: int, b1: int, b2: int, b3: int := b[0], b[1], b[2], b[3];
    b0 + 256 * (b1 + 256 * (b2 + 256 * b3))
  }

  lemma DecodeEncode(n: nat)
    requires n < SIZE_LIMIT
    ensures Decode(Encode(n)) == n
  {
    var n1 := n / 256;
    var n2 := n1 / 256;
    var n3 := n2 / 256;
    assert n == 256 * n1 + n % 256 && n1 == 256 * n2 + n1 % 256 && n2 == 256 * n3 + n2 % 256;
    assert n3 % 256 == n3;
  }

  /** A message as it is stored. */
  function Frame(m: seq<Byte>): seq<Byte> {
    Encode(|m|) + m
  }

  function Frames(ms: seq<seq<Byte>>): seq<Byte> {
    if ms == [] then [] else Frame(ms[0]) + Frames(ms[1..])
  }

  lemma {:induction false} FramesAppend(ms: seq<seq<Byte>>, ns: seq<seq<Byte>>)
    ensures Frames(ms + ns) == Frames(ms) + Frames(ns)
  {
    if ms == [] {
      assert ms + ns == ns;
    } else {
      assert (ms + ns)[0] == ms[0] && (ms + ns)[1..] == ms[1..] + ns;
      FramesAppend(ms[1..], ns);
    }
  }

  // ---------------------------------------------------------------- the indices

  /** An index that has moved past the end of the storage area goes on at its start. */
  function Wrap(x: nat, length: nat): nat {
    if x >= length then x - length else x
  }

  /** prvBytesInBuffer */
  function BytesIn(length: nat, head: nat, tail: nat): int {
    Wrap(if length + head >= tail then length + head - tail else 0, length)
  }

  /** xStreamBufferSpacesAvailable */
  function SpacesIn(length: nat, head: nat, tail: nat): int {
    Wrap(if length + tail >= head + 1 then length + tail - head - 1 else 0, length)
  }

  /** A multiple of `n` that is less than `n` in size is 0. */
  lemma SmallMultiple(d: int, n: nat)
    ensures d >= 1 ==> d * n >= n
    ensures d <= -1 ==> d * n + n <= 0
  {
    if d >= 1 {
      assert d * n == n + (d - 1) * n && (d - 1) * n >= 0;
    } else if d <= -1 {
      assert -d * n == n + (-d - 1) * n && (-d - 1) * n >= 0;
    }
  }

  lemma ModParts(a: nat, n: nat)
    requires n > 0
    ensures a == a / n * n + a % n && 0 <= a % n < n
  {
  }

  lemma ModUnique(a: nat, n: nat, r: nat, k: nat)
    requires n > 0 && r < n && a == k * n + r
    ensures a % n == r
  {
    ModParts(a, n);
    var d := a / n - k;
    assert a / n * n - k * n == d * n;
    SmallMultiple(d, n);
  }

  /** Moving on by less than the length is one wrap at most. */
  lemma WrapIsMod(p: nat, k: nat, length: nat)
    requires k < length
    ensures Wrap(p % length + k, length) == (p + k) % length
  {
    ModParts(p, length);
    OneWrap(p / length, p % length, k, length, p + k);
  }

  lemma OneWrap(q: nat, r: nat, k: nat, length: nat, a: nat)
    requires r < length && k < length && a == q * length + r + k
    ensures Wrap(r + k, length) == a % length
  {
    if r + k < length {
      ModUnique(a, length, r + k, q);
    } else {
      assert (q + 1) * length == q * length + length;
      ModUnique(a, length, r + k - length, q + 1);
    }
  }

  /** Two positions less than a length apart are stored in different places. */
  lemma Apart(p: nat, q: nat, length: nat)
    requires p < q < p + length
    ensures p % length != q % length
  {
    ModParts(p, length);
    ModParts(q, length);
    var d := q / length - p / length;
    assert q / length * length - p / length * length == d * length;
    SmallMultiple(d, length);
  }

  /** The code's index arithmetic counts exactly, as long as there is one byte to spare. */
  lemma IndicesCount(length: nat, head: nat, tail: nat)
    requires length > 0 && tail <= head < tail + length
    ensures BytesIn(length, head % length, tail % length) == head - tail
    ensures SpacesIn(length, head % length, tail % length) == length - 1 - (head - tail)
  {
    var d := head - tail;
    WrapIsMod(tail, d, length);
    ModParts(tail, length);
  }

  // ---------------------------------------------------------------- writer and reader

  /** What the writer is doing: it has sampled how much space there is; it is copying
      a message and has copied `done` bytes of its frame. */
  datatype Writer = WIdle | WSampled(space: int) | WCopying(msg: seq<Byte>, done: nat)

  /** What the reader is doing: it has sampled how many bytes there are; it is copying
      a message into memory for `capacity` bytes and has copied `got`. */
  datatype Reader = RIdle | RSampled(avail: int) | RCopying(avail: int, capacity: nat, got: seq<Byte>)

  /** pucBuffer, xHead and xTail; and, for the specification, which messages have been
      sent and which received. */
  datatype State = State(buffer: seq<Byte>, head: nat, tail: nat, writer: Writer, reader: Reader,
                         sent: seq<seq<Byte>>, received: seq<seq<Byte>>)

  /** How many of a message's bytes are read: none if the caller's memory is too small. */
  function ReadCount(avail: int, capacity: nat, prefix: seq<Byte>): int
    requires |prefix| == PREFIX
  {
    var n := Decode(prefix);
    var wanted := if n > capacity then 0 else n;
    if wanted < avail - PREFIX then wanted else avail - PREFIX
  }

  datatype Event =
      SampleSpace | BeginWrite(msg: seq<Byte>) | CopyIn | EndWrite
    | SampleBytes | BeginRead(capacity: nat) | CopyOut | EndRead

  /** The order of things in a send and in a receive. */
  ghost predicate Enabled(s: State, e: Event) {
    match e
    case SampleSpace => !s.writer.WCopying?
    case BeginWrite(msg) => s.writer.WSampled? && |msg| + PREFIX < SIZE_LIMIT
    case CopyIn => s.writer.WCopying? && s.writer.done < |Frame(s.writer.msg)|
    case EndWrite => s.writer.WCopying? && s.writer.done == |Frame(s.writer.msg)|
    case SampleBytes => !s.reader.RCopying?
    case BeginRead(_) => s.reader.RSampled?
    case CopyOut =>
      && s.reader.RCopying?
      && (|s.reader.got| < PREFIX || |s.reader.got| < PREFIX + ReadCount(s.reader.avail, s.reader.capacity, s.reader.got[..PREFIX]))
    case EndRead =>
      && s.reader.RCopying? && |s.reader.got| >= PREFIX
      && |s.reader.got| >= PREFIX + ReadCount(s.reader.avail, s.reader.capacity, s.reader.got[..PREFIX])
  }

  function Step(s: State, e: Event): State
    requires Enabled(s, e) && s.buffer != []
  {
    var length := |s.buffer|;
    match e
    case SampleSpace => s.(writer := WSampled(SpacesIn(length, s.head, s.tail)))
    case BeginWrite(msg) => s.(writer := if |msg| + PREFIX <= s.writer.space then WCopying(msg, 0) else WIdle)
    case CopyIn =>
      var i := Wrap(s.head + s.writer.done, length);
      var b := Frame(s.writer.msg)[s.writer.done];
      s.(buffer := if i < length then s.buffer[i := b] else s.buffer, writer := WCopying(s.writer.msg, s.writer.done + 1))
    case EndWrite =>
      if s.writer.msg == [] then s.(writer := WIdle)
      else s.(head := Wrap(Wrap(s.head + PREFIX, length) + |s.writer.msg|, length), writer := WIdle, sent := s.sent + [s.writer.msg])
    case SampleBytes =>
      var avail := BytesIn(length, s.head, s.tail);
      s.(reader := if avail > PREFIX then RSampled(avail) else RIdle)
    case BeginRead(capacity) => s.(reader := RCopying(s.reader.avail, capacity, []))
    case CopyOut =>
      var i := Wrap(s.tail + |s.reader.got|, length);
      s.(reader := s.reader.(got := s.reader.got + [if i < length then s.buffer[i] else 0]))
    case EndRead =>
      var count := |s.reader.got| - PREFIX;
      if count == 0 then s.(reader := RIdle)
      else s.(tail := Wrap(Wrap(s.tail + PREFIX, length) + count, length), reader := RIdle,
              received := s.received + [s.reader.got[PREFIX..]])
  }

  // ---------------------------------------------------------------- the invariant

  /** How many bytes have gone in and out since the buffer was made. */
  function Written(s: State): nat {
    |Frames(s.sent)|
  }

  function Read(s: State): nat {
    |Frames(s.received)|
  }

  /** The byte at an absolute position. */
  function At(buffer: seq<Byte>, p: nat): Byte
    requires buffer != []
  {
    buffer[p % |buffer|]
  }

  /** The bytes between the indices are the frames of the messages not yet received. */
  ghost predicate Stored(s: State) {
    && |s.buffer| > PREFIX + 1
    && s.received <= s.sent
    && (forall i | 0 <= i < |s.sent| :: 1 <= |s.sent[i]| < SIZE_LIMIT)
    && Read(s) <= Written(s) < Read(s) + |s.buffer|
    && s.head == Written(s) % |s.buffer| && s.tail == Read(s) % |s.buffer|
    && (forall p | Read(s) <= p < Written(s) :: At(s.buffer, p) == Frames(s.sent)[p])
  }

  /** The space the writer saw is there, and what it has copied stands behind the head. */
  ghost predicate WriterOk(s: State)
    requires |s.buffer| > 0
  {
    match s.writer
    case WIdle => true
    case WSampled(space) => Written(s) + space < Read(s) + |s.buffer|
    case WCopying(msg, done) =>
      && Written(s) + |Frame(msg)| < Read(s) + |s.buffer| && done <= |Frame(msg)| && |msg| < SIZE_LIMIT
      && (forall k | 0 <= k < done :: At(s.buffer, Written(s) + k) == Frame(msg)[k])
  }

  /** The bytes the reader saw are there, a whole message at least, and it has copied
      the beginning of the next message. */
  ghost predicate ReaderOk(s: State)
    requires s.received <= s.sent
  {
    match s.reader
    case RIdle => true
    case RSampled(avail) => Seen(s, avail)
    case RCopying(avail, capacity, got) =>
      && Seen(s, avail) && got <= Frame(s.sent[|s.received|])
      && (|got| > PREFIX ==> |s.sent[|s.received|]| <= capacity)
  }

  ghost predicate Seen(s: State, avail: int)
    requires s.received <= s.sent
  {
    && |s.received| < |s.sent| && Read(s) + avail <= Written(s)
    && avail >= |Frame(s.sent[|s.received|])|
  }

  ghost predicate Inv(s: State) {
    Stored(s) && WriterOk(s) && ReaderOk(s)
  }

  /** Writing at one position leaves the others within a length of it alone. */
  lemma Put(buffer: seq<Byte>, p: nat, x: Byte, q: nat)
    requires buffer != [] && p < q + |buffer| && q < p + |buffer|
    ensures p % |buffer| < |buffer| && At(buffer[p % |buffer| := x], q) == if q == p then x else At(buffer, q)
  {
    ModParts(p, |buffer|);
    if q < p {
      Apart(q, p, |buffer|);
    } else if p < q {
      Apart(p, q, |buffer|);
    }
  }

  lemma WrapAt(s: State, p: nat, k: nat)
    requires s.buffer != [] && k < |s.buffer|
    ensures Wrap(p % |s.buffer| + k, |s.buffer|) == (p + k) % |s.buffer| < |s.buffer|
  {
    WrapIsMod(p, k, |s.buffer|);
    ModParts(p + k, |s.buffer|);
  }

  lemma PrefixFrames(received: seq<seq<Byte>>, sent: seq<seq<Byte>>)
    requires received <= sent
    ensures Frames(sent) == Frames(received) + Frames(sent[|received|..])
    ensures |received| < |sent| ==> Frames(sent[|received|..]) == Frame(sent[|received|]) + Frames(sent[|received| + 1..])
  {
    hide Frames, Frame;
    assert sent == received + sent[|received|..];
    FramesAppend(received, sent[|received|..]);
    if |received| < |sent| {
      assert sent[|received|..][0] == sent[|received|] && sent[|received|..][1..] == sent[|received| + 1..];
      FirstOf(sent[|received|..]);
    }
  }

  lemma FirstOf(ms: seq<seq<Byte>>)
    requires ms != []
    ensures Frames(ms) == Frame(ms[0]) + Frames(ms[1..])
  {
  }

  // ---------------------------------------------------------------- each step keeps it

  lemma SampleSpaceInv(s: State)
    requires Inv(s) && Enabled(s, SampleSpace)
    ensures Inv(Step(s, SampleSpace))
    ensures Step(s, SampleSpace).writer.space == |s.buffer| - 1 - (Written(s) - Read(s))
  {
    IndicesCount(|s.buffer|, Written(s), Read(s));
    hide SpacesIn, Frames, At;
  }

  lemma BeginWriteInv(s: State, msg: seq<Byte>)
    requires Inv(s) && Enabled(s, BeginWrite(msg))
    ensures Inv(Step(s, BeginWrite(msg)))
  {
  }

  lemma CopyInInv(s: State)
    requires Inv(s) && Enabled(s, CopyIn)
    ensures Inv(Step(s, CopyIn))
  {
    hide Frames, At, Frame, Wrap;
    CopyInBytes(s);
    CopyInBuffer(s);
  }

  lemma CopyInBuffer(s: State)
    requires Inv(s) && Enabled(s, CopyIn)
    ensures var b, i := Frame(s.writer.msg)[s.writer.done], (Written(s) + s.writer.done) % |s.buffer|;
            i < |s.buffer| && Step(s, CopyIn) == s.(buffer := s.buffer[i := b], writer := WCopying(s.writer.msg, s.writer.done + 1))
  {
    hide Frames, At, Frame;
    WrapAt(s, Written(s), s.writer.done);
  }

  /** The byte that is copied goes behind what is stored and what was copied before. */
  lemma CopyInBytes(s: State)
    requires Inv(s) && Enabled(s, CopyIn)
    ensures var w, done := Written(s), s.writer.done;
            var b, i := Frame(s.writer.msg)[done], (w + done) % |s.buffer|;
            && i < |s.buffer|
            && (forall p | Read(s) <= p < w :: At(s.buffer[i := b], p) == Frames(s.sent)[p])
            && (forall k | 0 <= k < done + 1 :: At(s.buffer[i := b], w + k) == Frame(s.writer.msg)[k])
  {
    hide Frames, At, Frame;
    var w, done := Written(s), s.writer.done;
    ModParts(w + done, |s.buffer|);
    var b, i := Frame(s.writer.msg)[done], (w + done) % |s.buffer|;
    forall p | Read(s) <= p < w
      ensures At(s.buffer[i := b], p) == Frames(s.sent)[p]
    {
      Put(s.buffer, w + done, b, p);
    }
    forall k | 0 <= k < done + 1
      ensures At(s.buffer[i := b], w + k) == Frame(s.writer.msg)[k]
    {
      Put(s.buffer, w + done, b, w + k);
    }
  }

  /** Publishing the head: one more whole message is stored. */
  lemma EndWriteInv(s: State)
    requires Inv(s) && Enabled(s, EndWrite)
    ensures Inv(Step(s, EndWrite))
  {
    var msg := s.writer.msg;
    hide Frames, At, Frame, Wrap;
    if msg != [] {
      HeadMoves(s);
      FramesAppend(s.sent, [msg]);
      OneFrame(msg);
      var s' := Step(s, EndWrite);
      PublishedBytes(s);
      PublishedReader(s, s');
    }
  }

  lemma PublishedBytes(s: State)
    requires Inv(s) && Enabled(s, EndWrite)
    ensures forall p | Read(s) <= p < Written(s) + |Frame(s.writer.msg)| ::
              At(s.buffer, p) == (Frames(s.sent) + Frame(s.writer.msg))[p]
  {
    hide Frames, At, Frame;
    forall p | Read(s) <= p < Written(s) + |Frame(s.writer.msg)|
      ensures At(s.buffer, p) == (Frames(s.sent) + Frame(s.writer.msg))[p]
    {
      if p >= Written(s) {
        assert At(s.buffer, Written(s) + (p - Written(s))) == Frame(s.writer.msg)[p - Written(s)];
      }
    }
  }

  /** A new message behind those the reader has seen does not concern it. */
  lemma PublishedReader(s: State, s': State)
    requires s.received <= s.sent && ReaderOk(s)
    requires s'.reader == s.reader && s'.received == s.received && s.sent <= s'.sent && Written(s) <= Written(s')
    ensures ReaderOk(s')
  {
  }

  lemma OneFrame(m: seq<Byte>)
    ensures Frames([m]) == Frame(m) && |Frame(m)| == PREFIX + |m|
  {
  }

  lemma HeadMoves(s: State)
    requires Inv(s) && Enabled(s, EndWrite)
    ensures Wrap(Wrap(s.head + PREFIX, |s.buffer|) + |s.writer.msg|, |s.buffer|) == (Written(s) + |Frame(s.writer.msg)|) % |s.buffer|
  {
    hide Frames, At, Encode;
    var msg := s.writer.msg;
    WrapAt(s, Written(s), PREFIX);
    WrapAt(s, Written(s) + PREFIX, |msg|);
    assert Written(s) + PREFIX + |msg| == Written(s) + |Frame(msg)|;
  }

  lemma SampleBytesInv(s: State)
    requires Inv(s) && Enabled(s, SampleBytes)
    ensures Inv(Step(s, SampleBytes))
    ensures Step(s, SampleBytes).reader == if Written(s) > Read(s) then RSampled(Written(s) - Read(s)) else RIdle
  {
    IndicesCount(|s.buffer|, Written(s), Read(s));
    PrefixFrames(s.received, s.sent);
    hide BytesIn, At, Encode;
    if |s.received| == |s.sent| {
      assert s.received == s.sent;
    } else {
      assert |Frames(s.sent)| >= |Frames(s.received)| + |Frame(s.sent[|s.received|])|;
      hide Frames;
    }
  }

  lemma CopyOutInv(s: State)
    requires Inv(s) && Enabled(s, CopyOut)
    ensures Inv(Step(s, CopyOut))
  {
    hide Frames, Frame, Wrap, ReadCount;
    var r, got := Read(s), s.reader.got;
    var f := Frame(s.sent[|s.received|]);
    PrefixFrames(s.received, s.sent);
    OneFrame(s.sent[|s.received|]);
    CopiedLess(s);
    WrapAt(s, r, |got|);
    CopiedNext(s);
    assert got + [f[|got|]] <= f;
  }

  /** The next byte in the buffer is the next of the message's frame. */
  lemma CopiedNext(s: State)
    requires Inv(s) && s.reader.RCopying? && |s.reader.got| < |Frame(s.sent[|s.received|])|
    ensures At(s.buffer, Read(s) + |s.reader.got|) == Frame(s.sent[|s.received|])[|s.reader.got|]
  {
    hide Frames, Frame, At;
    PrefixFrames(s.received, s.sent);
    assert Frames(s.sent)[Read(s) + |s.reader.got|] == Frame(s.sent[|s.received|])[|s.reader.got|];
  }

  /** While bytes are still copied, the message is not complete. */
  lemma CopiedLess(s: State)
    requires Inv(s) && Enabled(s, CopyOut)
    ensures |s.reader.got| < |Frame(s.sent[|s.received|])|
    ensures |s.reader.got| >= PREFIX ==> |s.sent[|s.received|]| <= s.reader.capacity
  {
    var m, got := s.sent[|s.received|], s.reader.got;
    OneFrame(m);
    if |got| >= PREFIX {
      KnowsLength(got, m);
    }
    hide Frames, At, Frame, Decode;
  }

  lemma KnowsLength(got: seq<Byte>, m: seq<Byte>)
    requires PREFIX <= |got| && got <= Frame(m) && |m| < SIZE_LIMIT
    ensures Decode(got[..PREFIX]) == |m|
  {
  }

  /** What an end of a read finds: nothing was taken, or the message is complete. */
  lemma EndReadFinds(s: State)
    requires Inv(s) && Enabled(s, EndRead)
    ensures var m, got := s.sent[|s.received|], s.reader.got;
            && (|got| == PREFIX <==> |m| > s.reader.capacity)
            && (|got| > PREFIX ==> got == Frame(m) && got[PREFIX..] == m)
  {
    var m, got := s.sent[|s.received|], s.reader.got;
    OneFrame(m);
    KnowsLength(got, m);
    ReadsBounded(s);
    assert Frame(m)[PREFIX..] == m;
    hide Frames, At, Decode, Encode;
  }

  /** No read copies more than the message: kept by the bound in `CopyOut`. */
  lemma ReadsBounded(s: State)
    requires Inv(s) && Enabled(s, EndRead)
    ensures |s.reader.got| <= |Frame(s.sent[|s.received|])|
  {
  }

  lemma EndReadInv(s: State)
    requires Inv(s) && Enabled(s, EndRead)
    ensures Inv(Step(s, EndRead))
  {
    hide Frames, At, Frame, Wrap, ReadCount;
    var m := s.sent[|s.received|];
    EndReadFinds(s);
    if |s.reader.got| > PREFIX {
      OneFrame(m);
      PrefixFrames(s.received, s.sent);
      FramesAppend(s.received, [m]);
      TailMoves(s, m);
      assert s.received + [m] <= s.sent;
    }
  }

  lemma TailMoves(s: State, m: seq<Byte>)
    requires Stored(s) && Read(s) + |Frame(m)| <= Written(s)
    ensures Wrap(Wrap(s.tail + PREFIX, |s.buffer|) + |m|, |s.buffer|) == (Read(s) + |Frame(m)|) % |s.buffer|
  {
    hide Frames, At, Encode;
    WrapAt(s, Read(s), PREFIX);
    WrapAt(s, Read(s) + PREFIX, |m|);
    assert Read(s) + PREFIX + |m| == Read(s) + |Frame(m)|;
  }

  // ---------------------------------------------------------------- runs

  /** Every step of the writer and of the reader keeps the invariant. */
  lemma StepInv(s: State, e: Event)
    requires Inv(s) && Enabled(s, e)
    ensures Inv(Step(s, e))
  {
    hide Stored, WriterOk, ReaderOk, Step, Enabled;
    match e
    case SampleSpace => SampleSpaceInv(s);
    case BeginWrite(msg) => BeginWriteInv(s, msg);
    case CopyIn => CopyInInv(s);
    case EndWrite => EndWriteInv(s);
    case SampleBytes => SampleBytesInv(s);
    case BeginRead(_) => BeginReadInv(s, e);
    case CopyOut => CopyOutInv(s);
    case EndRead => EndReadInv(s);
  }

  lemma BeginReadInv(s: State, e: Event)
    requires Inv(s) && Enabled(s, e) && e.BeginRead?
    ensures Inv(Step(s, e))
  {
    hide Frames, At, Frame;
  }

  ghost predicate AllowedRun(s: State, es: seq<Event>)
    requires s.buffer != []
    decreases |es|
  {
    es == [] || (Enabled(s, es[0]) && Step(s, es[0]).buffer != [] && AllowedRun(Step(s, es[0]), es[1..]))
  }

  ghost function Run(s: State, es: seq<Event>): State
    requires s.buffer != [] && AllowedRun(s, es)
    decreases |es|
  {
    if es == [] then s else Run(Step(s, es[0]), es[1..])
  }

  lemma {:induction false} RunInv(s: State, es: seq<Event>)
    requires Inv(s) && AllowedRun(s, es)
    ensures Inv(Run(s, es))
    decreases |es|
  {
    InvStored(s);
    hide Inv, Enabled, Step;
    if es != [] {
      StepInv(s, es[0]);
      RunInv(Step(s, es[0]), es[1..]);
    }
  }

  lemma InvStored(s: State)
    requires Inv(s)
    ensures Stored(s) && s.buffer != []
  {
  }

  function Empty(buffer: seq<Byte>): State {
    State(buffer, 0, 0, WIdle, RIdle, [], [])
  }

  /** Round trip: over every interleaving the messages received are the first of those
      sent, each whole and in order, and the bytes between the indices are exactly the
      frames of the rest. */
  lemma ReceivedArePrefixOfSent(buffer: seq<Byte>, es: seq<Event>)
    requires |buffer| > PREFIX + 1 && AllowedRun(Empty(buffer), es)
    ensures var s := Run(Empty(buffer), es);
            && s.received <= s.sent && s.buffer != []
            && (forall i | 0 <= i < |s.sent| :: 1 <= |s.sent[i]|)
            && var rest := Frames(s.sent[|s.received|..]);
            && |rest| < |s.buffer| && BytesIn(|s.buffer|, s.head, s.tail) == |rest|
            && (forall k | 0 <= k < |rest| :: At(s.buffer, s.tail + k) == rest[k])
  {
    hide Frames, BytesIn, Run, AllowedRun, At, Inv, Stored, Empty;
    StartInv(buffer);
    RunInv(Empty(buffer), es);
    var s := Run(Empty(buffer), es);
    InvStored(s);
    StoredAre(s);
  }

  lemma StoredAre(s: State)
    requires Stored(s)
    ensures s.received <= s.sent && s.buffer != [] && (forall i | 0 <= i < |s.sent| :: 1 <= |s.sent[i]|)
    ensures var rest := Frames(s.sent[|s.received|..]);
            && |rest| < |s.buffer| && BytesIn(|s.buffer|, s.head, s.tail) == |rest|
            && (forall k | 0 <= k < |rest| :: At(s.buffer, s.tail + k) == rest[k])
  {
    hide Frames, BytesIn, At;
    PrefixFrames(s.received, s.sent);
    IndicesCount(|s.buffer|, Written(s), Read(s));
    var rest := Frames(s.sent[|s.received|..]);
    forall k | 0 <= k < |rest|
      ensures At(s.buffer, s.tail + k) == rest[k]
    {
      SameAt(s.buffer, Read(s), k);
      assert At(s.buffer, Read(s) + k) == Frames(s.sent)[Read(s) + k];
    }
  }

  lemma SameAt(buffer: seq<Byte>, p: nat, k: nat)
    requires buffer != []
    ensures At(buffer, p % |buffer| + k) == At(buffer, p + k)
  {
    var n := |buffer|;
    ModParts(p, n);
    ModParts(p % n + k, n);
    var q := (p % n + k) / n;
    assert p / n * n + q * n == (p / n + q) * n;
    ModUnique(p + k, n, (p % n + k) % n, p / n + q);
  }

  lemma StartInv(buffer: seq<Byte>)
    requires |buffer| > PREFIX + 1
    ensures Inv(Empty(buffer)) && Empty(buffer).buffer == buffer
  {
  }

  /** What either side saw of the other's index may be stale, but then there is more
      space, or there are more bytes, than it saw. */
  lemma SamplesUnderReport(s: State)
    requires Inv(s)
    ensures s.writer.WSampled? ==> s.writer.space <= SpacesIn(|s.buffer|, s.head, s.tail)
    ensures s.reader.RSampled? ==> s.reader.avail <= BytesIn(|s.buffer|, s.head, s.tail)
    ensures s.reader.RCopying? ==> s.reader.avail <= BytesIn(|s.buffer|, s.head, s.tail)
  {
    IndicesCount(|s.buffer|, Written(s), Read(s));
    hide Frames, At, SpacesIn, BytesIn;
  }

  /** Exactly two steps can be seen from outside: the end of a write of a message that
      is not empty, and the end of a read whose memory was large enough.  Anything
      else, a message that is too long or empty and memory that is too small among
      it, leaves the indices, the histories and every stored byte as they were. */
  lemma OnlyWholeTransfersShow(s: State, e: Event)
    requires Inv(s) && Enabled(s, e)
    ensures var s', shows := Step(s, e), (e == EndWrite && s.writer.msg != []) || (e == EndRead && |s.sent[|s.received|]| <= s.reader.capacity);
            && |s'.buffer| == |s.buffer|
            && (!shows ==> s'.head == s.head && s'.tail == s.tail && s'.sent == s.sent && s'.received == s.received)
            && (e == EndWrite && shows ==> s'.sent == s.sent + [s.writer.msg] && s'.received == s.received)
            && (e == EndRead && shows ==> s'.received == s.received + [s.sent[|s.received|]] && s'.sent == s.sent)
            && (forall p | Read(s) <= p < Written(s) :: At(s'.buffer, p) == At(s.buffer, p))
  {
    if e == EndRead {
      EndReadFinds(s);
    }
    if e == CopyIn {
      CopyInBuffer(s);
      CopyInBytes(s);
    }
    hide Frames, At, Frame, Wrap;
  }

  // ---------------------------------------------------------------- a send that fits goes through

  predicate Writes(e: Event) {
    e.SampleSpace? || e.BeginWrite? || e.CopyIn? || e.EndWrite?
  }

  /** The writer's part of a run. */
  function WriterPart(es: seq<Event>): seq<Event> {
    if es == [] then [] else (if Writes(es[0]) then [es[0]] else []) + WriterPart(es[1..])
  }

  function CopyIns(n: nat): seq<Event> {
    seq(n, _ => CopyIn)
  }

  lemma ReaderLeavesWriter(s: State, e: Event)
    requires s.buffer != [] && Enabled(s, e) && !Writes(e)
    ensures Step(s, e).writer == s.writer && Step(s, e).sent == s.sent && Step(s, e).buffer == s.buffer
  {
    hide Wrap, BytesIn, Frame;
  }

  /** A message that fits into the space the writer has seen is sent, whatever the
      reader does meanwhile; one that does not is not begun. */
  lemma {:induction false} SendGoesThrough(s: State, es: seq<Event>, msg: seq<Byte>)
    requires s.buffer != [] && AllowedRun(s, es) && s.writer.WSampled? && msg != []
    requires if |Frame(msg)| <= s.writer.space then WriterPart(es) == [BeginWrite(msg)] + CopyIns(|Frame(msg)|) + [EndWrite]
             else WriterPart(es) == [BeginWrite(msg)]
    ensures var s' := Run(s, es);
            s'.writer == WIdle && s'.sent == if |Frame(msg)| <= s.writer.space then s.sent + [msg] else s.sent
    decreases |es|
  {
    OneFrame(msg);
    hide Frame, Enabled, Step;
    var e, part := es[0], WriterPart(es);
    var s1 := Step(s, e);
    if Writes(e) {
      assert part[0] == e == BeginWrite(msg) && part[1..] == WriterPart(es[1..]);
      BeginsIfFits(s, msg);
      if |Frame(msg)| <= s.writer.space {
        assert part[1..] == CopyIns(|Frame(msg)|) + [EndWrite];
        CopyingEnds(s1, es[1..], msg, 0);
      } else {
        assert part[1..] == [];
        NothingWritten(s1, es[1..]);
      }
    } else {
      ReaderLeavesWriter(s, e);
      SendGoesThrough(s1, es[1..], msg);
    }
  }

  lemma BeginsIfFits(s: State, msg: seq<Byte>)
    requires s.buffer != [] && Enabled(s, BeginWrite(msg))
    ensures var s1 := Step(s, BeginWrite(msg));
            s1.buffer == s.buffer && s1.sent == s.sent && s1.writer == if |Frame(msg)| <= s.writer.space then WCopying(msg, 0) else WIdle
  {
  }

  lemma {:induction false} CopyingEnds(s: State, es: seq<Event>, msg: seq<Byte>, done: nat)
    requires s.buffer != [] && AllowedRun(s, es) && s.writer == WCopying(msg, done) && done <= |Frame(msg)| && msg != []
    requires WriterPart(es) == CopyIns(|Frame(msg)| - done) + [EndWrite]
    ensures Run(s, es).writer == WIdle && Run(s, es).sent == s.sent + [msg]
    decreases |es|
  {
    hide Frame, Enabled, Step;
    var e, part := es[0], WriterPart(es);
    var s1 := Step(s, e);
    if Writes(e) {
      assert part[0] == e && part[1..] == WriterPart(es[1..]);
      WriterSteps(s, e);
      if done < |Frame(msg)| {
        assert e == CopyIn && part[1..] == CopyIns(|Frame(msg)| - (done + 1)) + [EndWrite];
        CopyingEnds(s1, es[1..], msg, done + 1);
      } else {
        assert e == EndWrite && part[1..] == [];
        NothingWritten(s1, es[1..]);
      }
    } else {
      ReaderLeavesWriter(s, e);
      CopyingEnds(s1, es[1..], msg, done);
    }
  }

  lemma WriterSteps(s: State, e: Event)
    requires s.buffer != [] && Enabled(s, e) && s.writer.WCopying? && (e == CopyIn || e == EndWrite)
    ensures Step(s, e).buffer != []
    ensures e == CopyIn ==> Step(s, e).writer == s.writer.(done := s.writer.done + 1) && Step(s, e).sent == s.sent
    ensures e == EndWrite && s.writer.msg != [] ==> Step(s, e).writer == WIdle && Step(s, e).sent == s.sent + [s.writer.msg]
  {
    hide Wrap, Frame;
  }

  lemma {:induction false} NothingWritten(s: State, es: seq<Event>)
    requires s.buffer != [] && AllowedRun(s, es) && WriterPart(es) == []
    ensures Run(s, es).writer == s.writer && Run(s, es).sent == s.sent
    decreases |es|
  {
    hide Enabled, Step;
    if es != [] {
      ReaderLeavesWriter(s, es[0]);
      NothingWritten(Step(s, es[0]), es[1..]);
    }
  }
}
