/** The storage area of a message buffer as stream_buffer.c works on it: a byte array
    that is written and read in at most two pieces, and two indices. */
module StreamBufferCode {
  import opened MessageBuffers

  /** The byte `d` places on from index `at`. */
  function Stored(b: seq<Byte>, at: nat, d: nat): Byte
    requires at < |b| && d < |b|
  {
    b[Wrap(at + d, |b|)]
  }

  /** The `n` bytes from index `at` on. */
  function Bytes(b: seq<Byte>, at: nat, n: nat): (r: seq<Byte>)
    requires at < |b| && n <= |b|
    ensures |r| == n && forall d | 0 <= d < n :: r[d] == Stored(b, at, d)
  {
    seq(n, d requires 0 <= d < n => Stored(b, at, d))
  }

  /** `b'` is `b` with `data` written from index `at` on. */
  ghost predicate Overwritten(b: seq<Byte>, b': seq<Byte>, at: nat, data: seq<Byte>)
    requires at < |b| && |data| <= |b|
  {
    && |b'| == |b|
    && forall d | 0 <= d < |b| :: Stored(b', at, d) == if d < |data| then data[d] else Stored(b, at, d)
  }

  class StreamBuffer {
    const buffer: array<Byte>
    var head: nat
    var tail: nat

    ghost predicate Valid()
      reads this
    {
      PREFIX + 1 < buffer.Length && head < buffer.Length && tail < buffer.Length
    }

    ghost function Contents(): seq<Byte>
      requires Valid()
      reads this, buffer
    {
      Bytes(buffer[..], tail, Count(buffer.Length, head, tail))
    }

    constructor (size: nat)
      requires size > PREFIX
      ensures Valid() && Contents() == [] && buffer.Length == size + 1 && fresh(buffer)
    {
      buffer := new Byte[size + 1](_ => 0);
      head, tail := 0, 0;
    }

    /** prvBytesInBuffer */
    method BytesInBuffer() returns (n: nat)
      requires Valid()
      ensures n == BytesIn(buffer.Length, head, tail) == |Contents()|
    {
      n := buffer.Length + head - tail;
      if n >= buffer.Length {
        n := n - buffer.Length;
      }
    }

    /** xStreamBufferSpacesAvailable, when nobody moves the tail meanwhile */
    method SpacesAvailable() returns (n: nat)
      requires Valid()
      ensures n == SpacesIn(buffer.Length, head, tail) == buffer.Length - 1 - |Contents()|
    {
      n := buffer.Length + tail - head;
      n := n - 1;
      if n >= buffer.Length {
        n := n - buffer.Length;
      }
    }

    /** prvWriteBytesToBuffer */
    method WriteBytes(data: seq<Byte>, at: nat) returns (next: nat)
      requires Valid() && at < buffer.Length && 0 < |data| < buffer.Length
      modifies buffer
      ensures next == Wrap(at + |data|, buffer.Length) < buffer.Length
      ensures Overwritten(old(buffer[..]), buffer[..], at, data)
    {
      var count := |data|;
      var first := if buffer.Length - at < count then buffer.Length - at else count;
      var k := 0;
      while k < first
        invariant k <= first
        invariant forall i | 0 <= i < buffer.Length :: buffer[i] == if at <= i < at + k then data[i - at] else old(buffer[i])
        decreases first - k
      {
        buffer[at + k] := data[k];
        k := k + 1;
      }
      if count > first {
        k := 0;
        while k < count - first
          invariant k <= count - first
          invariant forall i | 0 <= i < buffer.Length :: buffer[i] ==
                      if at <= i < at + first then data[i - at] else if i < k then data[first + i] else old(buffer[i])
          decreases count - k
        {
          buffer[k] := data[first + k];
          k := k + 1;
        }
      }
      next := at + count;
      if next >= buffer.Length {
        next := next - buffer.Length;
      }
    }

    /** prvReadBytesFromBuffer */
    method ReadBytes(count: nat, at: nat) returns (data: seq<Byte>, next: nat)
      requires Valid() && at < buffer.Length && 0 < count < buffer.Length
      ensures data == Bytes(buffer[..], at, count)
      ensures next == Wrap(at + count, buffer.Length) < buffer.Length
    {
      var first := if buffer.Length - at < count then buffer.Length - at else count;
      data := buffer[at..at + first];
      if count > first {
        data := data + buffer[..count - first];
      }
      next := at + count;
      if next >= buffer.Length {
        next := next - buffer.Length;
      }
    }

    /** A send that does not wait, with prvWriteMessageToBuffer: a message goes in
        whole, or not at all. */
    method Send(msg: seq<Byte>) returns (sent: nat)
      requires Valid() && |msg| + PREFIX < SIZE_LIMIT
      modifies this`head, buffer
      ensures Valid() && tail == old(tail)
      ensures var fits := msg != [] && |old(Contents())| + |Frame(msg)| < buffer.Length;
              && sent == (if fits then |msg| else 0)
              && Contents() == if fits then old(Contents()) + Frame(msg) else old(Contents())
    {
      var required := |msg| + PREFIX;
      var space := SpacesAvailable();
      ghost var b0 := buffer[..];
      sent := |msg|;
      var next := head;
      if space >= required {
        next := WriteBytes(Encode(|msg|), next);
      } else {
        sent := 0;
      }
      ghost var b1 := buffer[..];
      if sent != 0 {
        var head1 := WriteBytes(msg, next);
        FrameWritten(b0, b1, buffer[..], head, tail, msg);
        head := head1;
      } else if space >= required {
        KeptBehind(b0, b1, head, tail, Encode(0));
      }
    }

    /** prvReadMessageFromBuffer behind the test for a whole message: a message comes
        out whole, or not at all if the caller's memory is too small. */
    method Receive(capacity: nat, ghost messages: seq<seq<Byte>>) returns (data: seq<Byte>)
      requires Valid() && Contents() == Frames(messages)
      requires forall i | 0 <= i < |messages| :: 1 <= |messages[i]| < SIZE_LIMIT
      modifies this`tail
      ensures Valid()
      ensures var taken := messages != [] && |messages[0]| <= capacity;
              && data == (if taken then messages[0] else [])
              && Contents() == if taken then Frames(messages[1..]) else old(Contents())
    {
      data := [];
      var available := BytesInBuffer();
      FirstFrame(messages);
      if available > PREFIX {
        var prefix, next := ReadBytes(PREFIX, tail);
        ghost var rest := Frames(messages[1..]);
        PrefixRead(Contents(), prefix, messages[0], rest);
        var length := Decode(prefix);
        available := available - PREFIX;
        if length > capacity {
          length := 0;
        }
        var count := if length < available then length else available;
        if count != 0 {
          ghost var tail0, all := tail, Contents();
          data, tail := ReadBytes(count, next);
          FrameRead(buffer[..], head, tail0, messages[0], rest);
        }
      }
    }
  }

  /** How many bytes there are, by the code's arithmetic on its indices. */
  function Count(length: nat, head: nat, tail: nat): (n: nat)
    requires head < length && tail < length
    ensures n < length && n == BytesIn(length, head, tail) && SpacesIn(length, head, tail) == length - 1 - n
  {
    if head >= tail then head - tail else length + head - tail
  }

  /** Writing from the head on leaves what is stored in front of it, and once the head
      has moved the new bytes are behind it. */
  lemma KeptBehind(b: seq<Byte>, b': seq<Byte>, head: nat, tail: nat, data: seq<Byte>)
    requires head < |b| && tail < |b| && Count(|b|, head, tail) + |data| < |b| && Overwritten(b, b', head, data)
    ensures var n := Count(|b|, head, tail);
            && Bytes(b', tail, n) == Bytes(b, tail, n)
            && Wrap(head + |data|, |b|) < |b| && Count(|b|, Wrap(head + |data|, |b|), tail) == n + |data|
            && Bytes(b', tail, n + |data|) == Bytes(b, tail, n) + data
  {
    var n := Count(|b|, head, tail);
    forall d | 0 <= d < n + |data|
      ensures Stored(b', tail, d) == if d < n then Stored(b, tail, d) else data[d - n]
    {
      if d < n {
        SamePlace(b, b', head, tail, n, d);
        assert Stored(b', head, |b| - n + d) == Stored(b, head, |b| - n + d);
      } else {
        SamePlace(b, b', head, tail, n, d);
        assert Stored(b', head, d - n) == data[d - n];
      }
    }
    assert Bytes(b', tail, n + |data|) == Bytes(b, tail, n) + data;
  }

  /** A place counted from the tail and counted from the head. */
  lemma SamePlace(b: seq<Byte>, b': seq<Byte>, head: nat, tail: nat, n: nat, d: nat)
    requires head < |b| == |b'| && tail < |b| && n == Count(|b|, head, tail) && d < |b|
    ensures d < n ==> Stored(b, tail, d) == Stored(b, head, |b| - n + d) && Stored(b', tail, d) == Stored(b', head, |b| - n + d)
    ensures d >= n ==> Stored(b', tail, d) == Stored(b', head, d - n)
  {
  }

  lemma FrameWritten(b0: seq<Byte>, b1: seq<Byte>, b2: seq<Byte>, head: nat, tail: nat, msg: seq<Byte>)
    requires head < |b0| == |b1| == |b2| && tail < |b0| && Count(|b0|, head, tail) + |Frame(msg)| < |b0|
    requires Overwritten(b0, b1, head, Encode(|msg|))
    requires Wrap(head + PREFIX, |b0|) < |b0| && Overwritten(b1, b2, Wrap(head + PREFIX, |b0|), msg)
    ensures var n := Count(|b0|, head, tail);
            var head2 := Wrap(Wrap(head + PREFIX, |b0|) + |msg|, |b0|);
            && head2 < |b0| && Count(|b0|, head2, tail) == n + |Frame(msg)|
            && Bytes(b2, tail, n + |Frame(msg)|) == Bytes(b0, tail, n) + Frame(msg)
  {
    KeptBehind(b0, b1, head, tail, Encode(|msg|));
    KeptBehind(b1, b2, Wrap(head + PREFIX, |b0|), tail, msg);
    hide Encode, Overwritten;
  }

  lemma FirstFrame(messages: seq<seq<Byte>>)
    requires forall i | 0 <= i < |messages| :: 1 <= |messages[i]| < SIZE_LIMIT
    ensures if messages == [] then Frames(messages) == []
            else Frames(messages) == Frame(messages[0]) + Frames(messages[1..]) && |Frame(messages[0])| > PREFIX
  {
  }

  /** The first bytes of a frame give the length of its message. */
  lemma PrefixRead(contents: seq<Byte>, prefix: seq<Byte>, m: seq<Byte>, rest: seq<Byte>)
    requires |m| < SIZE_LIMIT && contents == Frame(m) + rest && |prefix| == PREFIX
    requires prefix == contents[..PREFIX]
    ensures Decode(prefix) == |m| && |contents| == PREFIX + |m| + |rest|
  {
  }

  /** Behind the prefix comes the message, and behind that the other frames. */
  lemma FrameRead(b: seq<Byte>, head: nat, tail: nat, m: seq<Byte>, rest: seq<Byte>)
    requires head < |b| && tail < |b| && PREFIX + |m| <= Count(|b|, head, tail)
    requires Bytes(b, tail, Count(|b|, head, tail)) == Frame(m) + rest
    ensures var next := Wrap(tail + PREFIX, |b|);
            && next < |b| && Bytes(b, next, |m|) == m
            && var tail' := Wrap(next + |m|, |b|);
            && tail' < |b| && Count(|b|, head, tail') == |rest| && Bytes(b, tail', |rest|) == rest
  {
    var n, all := Count(|b|, head, tail), Frame(m) + rest;
    var next := Wrap(tail + PREFIX, |b|);
    assert |all| == n;
    hide Encode, Count;
    FrameReadPlaces(b, head, tail, m, rest);
    forall d | 0 <= d < |m|
      ensures Bytes(b, next, |m|)[d] == m[d]
    {
      assert all[PREFIX + d] == m[d];
    }
    var tail' := Wrap(next + |m|, |b|);
    forall d | 0 <= d < |rest|
      ensures Bytes(b, tail', |rest|)[d] == rest[d]
    {
      assert all[PREFIX + |m| + d] == rest[d];
    }
  }

  lemma FrameReadPlaces(b: seq<Byte>, head: nat, tail: nat, m: seq<Byte>, rest: seq<Byte>)
    requires head < |b| && tail < |b| && PREFIX + |m| + |rest| == Count(|b|, head, tail)
    ensures var next := Wrap(tail + PREFIX, |b|);
            var tail' := Wrap(next + |m|, |b|);
            && next < |b| && tail' < |b| && Count(|b|, head, tail') == |rest|
            && (forall d | 0 <= d < |m| :: Stored(b, next, d) == Stored(b, tail, PREFIX + d))
            && (forall d | 0 <= d < |rest| :: Stored(b, tail', d) == Stored(b, tail, PREFIX + |m| + d))
  {
  }
}
