/**
 Stream and message buffers (stream_buffer.c): a ring of bytes in which one position is
 always left free, and messages framed by their length.
 */
module StreamBuffers {

  type Byte = b: nat | b < 256

  /** `sizeof( size_t )` on this 64-bit port. */
  const HEADER: nat := 8

  // ---- positions -------------------------------------------------------------------------------------

  /** The position i places after `from` in a ring of n. */
  function Pos(from: nat, i: nat, n: nat): nat {
    if from + i < n then from + i else from + i - n
  }

  lemma PosDistinct(from: nat, i: nat, j: nat, n: nat)
    requires from < n && i < n && j < n
    ensures Pos(from, i, n) == Pos(from, j, n) <==> i == j
    ensures Pos(from, i, n) < n
  {
  }

  /** `prvBytesInBuffer`. */
  function BytesIn(n: nat, head: nat, tail: nat): nat
    requires tail <= n + head
  {
    var count := n + head - tail;
    if count >= n then count - n else count
  }

  /** `xStreamBufferSpacesAvailable`. */
  function Spaces(n: nat, head: nat, tail: nat): nat
    requires head + 1 <= n + tail
  {
    var space := n + tail - head - 1;
    if space >= n then space - n else space
  }

  /** Bytes and spaces account for all but one of the positions. */
  lemma BytesAndSpaces(n: nat, tail: nat, held: nat)
    requires tail < n && held < n
    ensures BytesIn(n, Pos(tail, held, n), tail) == held
    ensures Spaces(n, Pos(tail, held, n), tail) == n - 1 - held
  {
  }

  // ---- what the ring holds ----------------------------------------------------------------------------

  /** The bytes that have been written and not read, oldest first. */
  ghost function Held(data: seq<Byte>, head: nat, tail: nat): (q: seq<Byte>)
    requires head < |data| && tail < |data|
    ensures |q| == BytesIn(|data|, head, tail) < |data|
    ensures head == Pos(tail, |q|, |data|)
    ensures forall i {:trigger q[i]} :: 0 <= i < |q| ==> q[i] == data[Pos(tail, i, |data|)]
  {
    seq(BytesIn(|data|, head, tail), i requires 0 <= i < BytesIn(|data|, head, tail) => data[Pos(tail, i, |data|)])
  }

  /** Copying into free positions does not change what is held. */
  lemma CopyLeavesHeld(data: seq<Byte>, head: nat, tail: nat, i: nat, b: Byte)
    requires head < |data| && tail < |data| && i < Spaces(|data|, head, tail)
    ensures Held(data[Pos(head, i, |data|) := b], head, tail) == Held(data, head, tail)
    ensures Pos(head, i, |data|) < |data|
  {
  }

  /** Publishing copied bytes appends them. */
  lemma PublishAppends(data: seq<Byte>, head: nat, tail: nat, bytes: seq<Byte>)
    requires head < |data| && tail < |data| && |bytes| <= Spaces(|data|, head, tail)
    requires forall i {:trigger bytes[i]} :: 0 <= i < |bytes| ==> data[Pos(head, i, |data|)] == bytes[i]
    ensures var next := Pos(head, |bytes|, |data|);
            && next < |data|
            && Held(data, next, tail) == Held(data, head, tail) + bytes
            && Spaces(|data|, next, tail) == Spaces(|data|, head, tail) - |bytes|
  {
  }

  /** Moving the tail drops the front. */
  lemma TakeDrops(data: seq<Byte>, head: nat, tail: nat, count: nat)
    requires head < |data| && tail < |data| && count <= |Held(data, head, tail)|
    ensures var next := Pos(tail, count, |data|);
            && next < |data|
            && Held(data, head, next) == Held(data, head, tail)[count..]
            && Spaces(|data|, head, next) == Spaces(|data|, head, tail) + count
  {
  }

  /** Copying bytes in behind the head, round the end if need be, appends them. */
  lemma CopyAppends(was: seq<Byte>, now: seq<Byte>, head: nat, tail: nat, bytes: seq<Byte>)
    requires head < |was| == |now| && tail < |was| && |Held(was, head, tail)| + |bytes| < |was|
    requires forall i {:trigger bytes[i]} :: 0 <= i < |bytes| ==> now[Pos(head, i, |was|)] == bytes[i]
    requires forall j {:trigger now[j]} :: 0 <= j < |was| && !IsFilled(j, head, |bytes|, |was|) ==> now[j] == was[j]
    ensures var next := Pos(head, |bytes|, |was|);
            next < |was| && Held(now, next, tail) == Held(was, head, tail) + bytes
  {
    var q := Held(was, head, tail);
    BytesAndSpaces(|was|, tail, |q| + |bytes|);
    forall i | 0 <= i < |q| + |bytes|
      ensures now[Pos(tail, i, |was|)] == (q + bytes)[i]
    {
      if i >= |q| {
        assert Pos(tail, i, |was|) == Pos(head, i - |q|, |was|);
        assert now[Pos(head, i - |q|, |was|)] == bytes[i - |q|];
      }
    }
  }

  /** Position j is one of the next `count` from the head on. */
  predicate IsFilled(j: nat, head: nat, count: nat, n: nat) {
    head <= j < head + count || j + n < head + count
  }

  /** Copying bytes out from the tail on, round the end if need be, takes the front. */
  lemma CopyTakes(data: seq<Byte>, head: nat, tail: nat, bytes: seq<Byte>)
    requires head < |data| && tail < |data| && |bytes| <= |Held(data, head, tail)|
    requires forall i {:trigger bytes[i]} :: 0 <= i < |bytes| ==> bytes[i] == data[Pos(tail, i, |data|)]
    ensures bytes == Held(data, head, tail)[..|bytes|]
  {
  }

  // ---- lengths as bytes --------------------------------------------------------------------------------

  function Power(k: nat): nat {
    if k == 0 then 1 else 256 * Power(k - 1)
  }

  /** The k low bytes of n, least significant first. */
  function Encode(n: nat, k: nat): (s: seq<Byte>)
    ensures |s| == k
  {
    if k == 0 then [] else [n % 256] + Encode(n / 256, k - 1)
  }

  function Decode(s: seq<Byte>): nat {
    if s == [] then 0 else s[0] + 256 * Decode(s[1..])
  }

  lemma {:induction false} LengthRoundTrip(n: nat, k: nat)
    requires n < Power(k)
    ensures Decode(Encode(n, k)) == n
  {
    if k > 0 {
      LengthRoundTrip(n / 256, k - 1);
      assert Encode(n, k)[1..] == Encode(n / 256, k - 1);
    }
  }

  /** A message as it is stored. */
  function Frame(m: seq<Byte>): seq<Byte> {
    Encode(|m|, HEADER) + m
  }

  function Frames(ms: seq<seq<Byte>>): seq<Byte> {
    if ms == [] then [] else Frame(ms[0]) + Frames(ms[1..])
  }

  /** A message whose length a `size_t` can hold. */
  ghost predicate Sendable(m: seq<Byte>) {
    0 < |m| < Power(HEADER)
  }

  lemma {:induction false} FramesSnoc(ms: seq<seq<Byte>>, m: seq<Byte>)
    ensures Frames(ms + [m]) == Frames(ms) + Frame(m)
  {
    if ms == [] {
      assert ms + [m] == [m];
      assert Frames([m]) == Frame(m) + Frames([]);
    } else {
      assert (ms + [m])[1..] == ms[1..] + [m];
      FramesSnoc(ms[1..], m);
    }
  }

  lemma Slices(s: seq<Byte>, i: nat, n: nat)
    requires i + n <= |s|
    ensures s[i..][..n] == s[i..i + n] && s[i..][n..] == s[i + n..]
  {
  }

  // ---- the buffer in place --------------------------------------------------------------------------------

  class StreamBuffer {
    const data: array<Byte>
    const isMessageBuffer: bool
    var head: nat
    var tail: nat

    ghost predicate Valid()
      reads this
    {
      head < data.Length && tail < data.Length
    }

    ghost function Contents(): (s: seq<Byte>)
      requires Valid()
      reads this, data
      ensures |s| == BytesIn(data.Length, head, tail) < data.Length
    {
      Held(data[..], head, tail)
    }

    /** `prvInitialiseNewStreamBuffer`. */
    constructor (storage: array<Byte>, isMessageBuffer: bool)
      requires storage.Length > 0
      ensures Valid() && Contents() == [] && data == storage && this.isMessageBuffer == isMessageBuffer
    {
      data, this.isMessageBuffer, head, tail := storage, isMessageBuffer, 0, 0;
    }

    method SpacesAvailable() returns (space: nat)
      requires Valid()
      ensures space == data.Length - 1 - |Contents()|
    {
      space := Spaces(data.Length, head, tail);
    }

    method BytesInBuffer() returns (count: nat)
      requires Valid()
      ensures count == |Contents()|
    {
      count := BytesIn(data.Length, head, tail);
    }

    /** `prvWriteBytesToBuffer`: one copy up to the end of the storage, a second from its start. */
    method WriteBytes(bytes: seq<Byte>)
      requires Valid() && |Contents()| + |bytes| < data.Length
      modifies this`head, data
      ensures Valid() && Contents() == old(Contents()) + bytes
    {
      hide Held;
      var count := |bytes|;
      ghost var was := data[..];
      var first := if data.Length - head < count then data.Length - head else count;
      forall i | 0 <= i < first { data[head + i] := bytes[i]; }
      if count > first {
        forall i | 0 <= i < count - first { data[i] := bytes[first + i]; }
      }
      CopyAppends(was, data[..], head, tail, bytes);
      var next := head + count;
      if next >= data.Length {
        next := next - data.Length;
      }
      head := next;
    }

    /** `prvReadBytesFromBuffer`. */
    method ReadBytes(maxCount: nat, available: nat) returns (bytes: seq<Byte>)
      requires Valid() && available <= |Contents()|
      modifies this`tail
      ensures Valid()
      ensures var count := if available < maxCount then available else maxCount;
              bytes == old(Contents())[..count] && Contents() == old(Contents())[count..]
    {
      hide Held;
      var count := if available < maxCount then available else maxCount;
      TakeDrops(data[..], head, tail, count);
      var first := if data.Length - tail < count then data.Length - tail else count;
      bytes := data[tail..tail + first];
      if count > first {
        bytes := bytes + data[..count - first];
      }
      CopyTakes(data[..], head, tail, bytes);
      var next := tail + count;
      if next >= data.Length {
        next := next - data.Length;
      }
      tail := next;
    }

    /** `prvWriteMessageToBuffer`, given the space that was seen and the space a message needs. */
    method WriteMessage(bytes: seq<Byte>, space: nat, required: nat) returns (written: nat)
      requires Valid() && space == data.Length - 1 - |Contents()|
      requires required == if isMessageBuffer then |bytes| + HEADER else |bytes|
      modifies this`head, data
      ensures Valid()
      ensures isMessageBuffer ==>
                if space > 0 && space >= required
                then written == |bytes| && Contents() == old(Contents()) + Frame(bytes)
                else written == 0 && Contents() == old(Contents())
      ensures !isMessageBuffer ==>
                && written == (if |bytes| <= space then |bytes| else space)
                && Contents() == old(Contents()) + bytes[..written]
    {
      written := 0;
      var toWrite := bytes;
      var shouldWrite := false;
      if space == 0 {
        shouldWrite := false;
      } else if !isMessageBuffer {
        shouldWrite := true;
        toWrite := bytes[..if |bytes| < space then |bytes| else space];
      } else if space >= required {
        shouldWrite := true;
        WriteBytes(Encode(|bytes|, HEADER));
      }
      if shouldWrite {
        WriteBytes(toWrite);
        written := |toWrite|;
      }
    }

    /** `prvReadMessageFromBuffer`. */
    method ReadMessage(capacity: nat, available: nat) returns (bytes: seq<Byte>)
      requires Valid() && available == |Contents()|
      requires isMessageBuffer ==> available >= HEADER
      modifies this`tail
      ensures Valid()
      ensures !isMessageBuffer ==>
                var count := if available < capacity then available else capacity;
                bytes == old(Contents())[..count] && Contents() == old(Contents())[count..]
      ensures isMessageBuffer ==>
                var next := Decode(old(Contents())[..HEADER]);
                if next > capacity then bytes == [] && Contents() == old(Contents())
                else
                  var count := if available - HEADER < next then available - HEADER else next;
                  bytes == old(Contents())[HEADER..HEADER + count] && Contents() == old(Contents())[HEADER + count..]
    {
      hide Decode, Pos, BytesIn;
      var left, next := available, capacity;
      ghost var was := Contents();
      if isMessageBuffer {
        var originalTail := tail;
        var header := ReadBytes(HEADER, available);
        next := Decode(header);
        left := left - HEADER;
        if next > capacity {
          tail := originalTail;
          next := 0;
        } else {
          Slices(was, HEADER, if left < next then left else next);
        }
      }
      bytes := ReadBytes(next, left);
    }

    /** `xStreamBufferSend` that does not block.  When the buffer holds whole messages it takes
        the new one whole or not at all. */
    method Send(bytes: seq<Byte>, ghost held: seq<seq<Byte>>) returns (written: nat)
      requires Valid() && (isMessageBuffer ==> Contents() == Frames(held))
      modifies this`head, data
      ensures Valid()
      ensures isMessageBuffer ==>
                if |old(Contents())| + HEADER + |bytes| < data.Length
                then written == |bytes| && Contents() == Frames(held + [bytes])
                else written == 0 && Contents() == Frames(held)
      ensures !isMessageBuffer ==> written <= |bytes| && Contents() == old(Contents()) + bytes[..written]
      ensures !isMessageBuffer && written < |bytes| ==> |Contents()| == data.Length - 1
    {
      var required := |bytes|;
      if isMessageBuffer {
        required := required + HEADER;
      }
      var space := SpacesAvailable();
      written := WriteMessage(bytes, space, required);
      FramesSnoc(held, bytes);
    }

    /** `xStreamBufferReceive` that does not block.  A message buffer gives up its first message
        whole; if that does not fit it returns nothing and leaves the contents as they are. */
    method Receive(capacity: nat, ghost held: seq<seq<Byte>>) returns (bytes: seq<Byte>)
      requires Valid()
      requires isMessageBuffer ==> Contents() == Frames(held) && forall m :: m in held ==> Sendable(m)
      modifies this`tail
      ensures Valid()
      ensures isMessageBuffer ==>
                if held == [] || |held[0]| > capacity then bytes == [] && Contents() == old(Contents())
                else bytes == held[0] && Contents() == Frames(held[1..])
      ensures !isMessageBuffer ==> bytes + Contents() == old(Contents())
      ensures !isMessageBuffer ==> |bytes| == capacity || Contents() == []
    {
      ghost var was := Contents();
      bytes := [];
      var available := BytesInBuffer();
      var lengthBytes := if isMessageBuffer then HEADER else 0;
      if isMessageBuffer && held != [] {
        assert held[0] in held;
        FirstFrame(held);
      }
      if available > lengthBytes {
        bytes := ReadMessage(capacity, available);
        assert !isMessageBuffer ==> bytes + Contents() == was;
      }
    }
  }

  /** The first message can be read off its frame. */
  lemma FirstFrame(ms: seq<seq<Byte>>)
    requires ms != [] && Sendable(ms[0])
    ensures var q, n := Frames(ms), |ms[0]|;
            && |q| >= HEADER + n
            && Decode(q[..HEADER]) == n
            && q[HEADER..HEADER + n] == ms[0]
            && q[HEADER + n..] == Frames(ms[1..])
  {
    var header, n, rest := Encode(|ms[0]|, HEADER), |ms[0]|, Frames(ms[1..]);
    LengthRoundTrip(n, HEADER);
    hide Encode, Decode;
    var q := Frames(ms);
    assert q == header + ms[0] + rest;
    assert q[..HEADER] == header;
  }
}
