/**
 One writer and one reader of a message buffer (stream_buffer.c), interleaved at every
 byte copied and every update of `xHead` and `xTail`.  The writer publishes a message in
 two parts, its length and its bytes; the reader takes it in the same two parts.
 */
module MessageInterleaving {
  import opened Sequences
  import opened StreamBuffers

  datatype Writer =
    | Resting
    | SawSpace(message: seq<Byte>, space: nat)
    | CopyingHeader(message: seq<Byte>, copied: nat)
    | CopyingMessage(message: seq<Byte>, copied: nat)

  datatype Reader =
    | Waiting
    | SawBytes(available: nat, capacity: nat)
    | TakingHeader(available: nat, capacity: nat, got: seq<Byte>)
    | TakingMessage(count: nat, got: seq<Byte>)

  /** `sent` and `received` are history: a message counts as sent when its last byte is
      published. */
  datatype State = State(
    data: seq<Byte>,
    head: nat,
    tail: nat,
    writer: Writer,
    reader: Reader,
    sent: seq<seq<Byte>>,
    received: seq<seq<Byte>>)

  datatype Step =
    | BeginSend(message: seq<Byte>)
    | DecideSend
    | WriteByte
    | PublishHeader
    | PublishMessage
    | BeginReceive(capacity: nat)
    | DecideReceive
    | ReadByte
    | TakeHeader
    | TakeMessage

  /** The byte the writer copies next. */
  function ToWrite(w: Writer): seq<Byte> {
    match w
    case CopyingHeader(m, _) => Encode(|m|, HEADER)
    case CopyingMessage(m, _) => m
    case _ => []
  }

  function Copied(w: Writer): nat {
    match w
    case CopyingHeader(_, i) => i
    case CopyingMessage(_, i) => i
    case _ => 0
  }

  function Got(r: Reader): seq<Byte> {
    match r
    case TakingHeader(_, _, got) => got
    case TakingMessage(_, got) => got
    case _ => []
  }

  function ToRead(r: Reader): nat {
    match r
    case TakingHeader(_, _, _) => HEADER
    case TakingMessage(count, _) => count
    case _ => 0
  }

  ghost predicate InRing(s: State) {
    s.head < |s.data| && s.tail < |s.data|
  }

  /** The receive buffer is large enough for the message it meets. */
  ghost predicate Enabled(s: State, step: Step) {
    InRing(s) &&
    match step
    case BeginSend(m) => s.writer.Resting? && Sendable(m)
    case DecideSend => s.writer.SawSpace?
    case WriteByte => Copied(s.writer) < |ToWrite(s.writer)| && Copied(s.writer) < |s.data|
    case PublishHeader => s.writer.CopyingHeader? && s.writer.copied == HEADER
    case PublishMessage => s.writer.CopyingMessage? && s.writer.copied == |s.writer.message|
    case BeginReceive(_) => s.reader.Waiting?
    case DecideReceive => s.reader.SawBytes?
    case ReadByte => |Got(s.reader)| < ToRead(s.reader) && |Got(s.reader)| < |s.data|
    case TakeHeader =>
      s.reader.TakingHeader? && |s.reader.got| == HEADER <= s.reader.available
      && Decode(s.reader.got) <= s.reader.capacity
    case TakeMessage => s.reader.TakingMessage? && |s.reader.got| == s.reader.count
  }

  ghost function Apply(s: State, step: Step): State
    requires Enabled(s, step)
  {
    var n := |s.data|;
    match step
    case BeginSend(m) => s.(writer := SawSpace(m, Spaces(n, s.head, s.tail)))
    case DecideSend =>
      var m := s.writer.message;
      s.(writer := if s.writer.space > 0 && s.writer.space >= |m| + HEADER then CopyingHeader(m, 0) else Resting)
    case WriteByte =>
      var i := Copied(s.writer);
      s.(data := s.data[Pos(s.head, i, n) := ToWrite(s.writer)[i]], writer := s.writer.(copied := i + 1))
    case PublishHeader =>
      s.(head := Pos(s.head, HEADER, n), writer := CopyingMessage(s.writer.message, 0))
    case PublishMessage =>
      s.(head := Pos(s.head, |s.writer.message|, n), writer := Resting, sent := s.sent + [s.writer.message])
    case BeginReceive(capacity) => s.(reader := SawBytes(BytesIn(n, s.head, s.tail), capacity))
    case DecideReceive =>
      s.(reader := if s.reader.available > HEADER then TakingHeader(s.reader.available, s.reader.capacity, []) else Waiting)
    case ReadByte =>
      s.(reader := s.reader.(got := Got(s.reader) + [s.data[Pos(s.tail, |Got(s.reader)|, n)]]))
    case TakeHeader =>
      var next, left := Decode(s.reader.got), s.reader.available - HEADER;
      s.(tail := Pos(s.tail, HEADER, n), reader := TakingMessage(if left < next then left else next, []))
    case TakeMessage =>
      s.(tail := Pos(s.tail, s.reader.count, n), reader := Waiting, received := s.received + [s.reader.got])
  }

  ghost predicate CanRun(s: State, steps: seq<Step>)
    decreases |steps|
  {
    steps == [] || (Enabled(s, steps[0]) && CanRun(Apply(s, steps[0]), steps[1..]))
  }

  ghost function Run(s: State, steps: seq<Step>): State
    requires CanRun(s, steps)
    decreases |steps|
  {
    if steps == [] then s else Run(Apply(s, steps[0]), steps[1..])
  }

  function Start(data: seq<Byte>): State {
    State(data, 0, 0, Resting, Waiting, [], [])
  }

  // ---- the invariant ---------------------------------------------------------------------------------------

  /** The sent messages from the k-th on; without the length of the first if that is taken. */
  ghost function Wanting(sent: seq<seq<Byte>>, k: nat, lengthTaken: bool): seq<Byte> {
    if k >= |sent| then []
    else if lengthTaken then sent[k] + Frames(sent[k + 1..])
    else Frames(sent[k..])
  }

  /** The length the writer has published ahead of its message. */
  ghost function Ahead(w: Writer): seq<Byte> {
    if w.CopyingMessage? then Encode(|w.message|, HEADER) else []
  }

  /** The published bytes still to be taken, from the history. */
  ghost function Expected(s: State): seq<Byte> {
    Wanting(s.sent, |s.received|, s.reader.TakingMessage?) + Ahead(s.writer)
  }

  ghost predicate WriterOk(s: State)
    requires InRing(s)
  {
    var space := Spaces(|s.data|, s.head, s.tail);
    && (s.writer.SawSpace? ==> Sendable(s.writer.message) && s.writer.space <= space)
    && (s.writer.CopyingHeader? ==> Sendable(s.writer.message) && HEADER + |s.writer.message| <= space)
    && (s.writer.CopyingMessage? ==> Sendable(s.writer.message) && |s.writer.message| <= space)
    && Copied(s.writer) <= |ToWrite(s.writer)|
    && (forall i {:trigger ToWrite(s.writer)[i]} :: 0 <= i < Copied(s.writer) ==>
          s.data[Pos(s.head, i, |s.data|)] == ToWrite(s.writer)[i])
  }

  /** More than a header is there, so a whole message is. */
  ghost predicate Whole(s: State, available: nat)
    requires InRing(s)
  {
    available <= |Held(s.data, s.head, s.tail)|
    && (available > HEADER ==>
          |s.received| < |s.sent| && available >= HEADER + |s.sent[|s.received|]|)
  }

  ghost predicate ReaderOk(s: State)
    requires InRing(s)
  {
    var held := Held(s.data, s.head, s.tail);
    && (s.reader.SawBytes? ==> Whole(s, s.reader.available))
    && (s.reader.TakingHeader? ==> Whole(s, s.reader.available) && s.reader.available > HEADER)
    && (s.reader.TakingMessage? ==>
          |s.received| < |s.sent| && s.reader.count == |s.sent[|s.received|]| <= |held|)
    && |Got(s.reader)| <= ToRead(s.reader) && |Got(s.reader)| <= |held|
    && Got(s.reader) == held[..|Got(s.reader)|]
  }

  ghost predicate Inv(s: State) {
    && InRing(s)
    && |s.received| <= |s.sent| && s.received == s.sent[..|s.received|]
    && (forall m :: m in s.sent ==> Sendable(m))
    && WriterOk(s) && ReaderOk(s)
    && Held(s.data, s.head, s.tail) == Expected(s)
  }

  // ---- steps -----------------------------------------------------------------------------------------------

  /** What the reader knows stays true while the writer only appends. */
  lemma ReaderStays(s: State, r: State, more: seq<Byte>)
    requires InRing(s) && InRing(r) && ReaderOk(s)
    requires r.reader == s.reader && r.received == s.received && |r.sent| >= |s.sent| && r.sent[..|s.sent|] == s.sent
    requires Held(r.data, r.head, r.tail) == Held(s.data, s.head, s.tail) + more
    ensures ReaderOk(r)
  {
    hide Held;
    var k := |s.received|;
    assert k < |s.sent| ==> r.sent[..|s.sent|][k] == s.sent[k];
  }

  lemma WriteByteKeeps(s: State)
    requires Inv(s) && Enabled(s, WriteByte)
    ensures Inv(Apply(s, WriteByte))
  {
    hide Held, Expected;
    var i, r := Copied(s.writer), Apply(s, WriteByte);
    CopyLeavesHeld(s.data, s.head, s.tail, i, ToWrite(s.writer)[i]);
    assert ToWrite(r.writer) == ToWrite(s.writer);
    assert Expected(r) == Expected(s) by { SameExpected(s, r); }
    ReaderStays(s, r, []);
    assert WriterOk(r) by {
      forall j | 0 <= j < Copied(r.writer)
        ensures r.data[Pos(r.head, j, |r.data|)] == ToWrite(r.writer)[j]
      {
        PosDistinct(s.head, i, j, |s.data|);
      }
    }
  }

  lemma SameExpected(s: State, r: State)
    requires r.received == s.received && r.sent == s.sent && r.reader.TakingMessage? == s.reader.TakingMessage?
    requires r.writer.CopyingMessage? == s.writer.CopyingMessage?
    requires s.writer.CopyingMessage? ==> r.writer.message == s.writer.message
    ensures Expected(r) == Expected(s)
  {
  }

  lemma PublishHeaderExpected(s: State)
    requires Enabled(s, PublishHeader)
    ensures Expected(Apply(s, PublishHeader)) == Expected(s) + Encode(|s.writer.message|, HEADER)
  {
    hide Encode, Wanting;
  }

  lemma PublishHeaderKeeps(s: State)
    requires Inv(s) && Enabled(s, PublishHeader)
    ensures Inv(Apply(s, PublishHeader))
  {
    var r, header := Apply(s, PublishHeader), Encode(|s.writer.message|, HEADER);
    assert ToWrite(s.writer) == header;
    PublishAppends(s.data, s.head, s.tail, header);
    PublishHeaderExpected(s);
    hide Held, Encode, Decode, Expected, Pos, ReaderOk;
    ReaderStays(s, r, header);
  }

  lemma WantingSnoc(sent: seq<seq<Byte>>, k: nat, lengthTaken: bool, m: seq<Byte>)
    requires k <= |sent| && (lengthTaken ==> k < |sent|)
    ensures Wanting(sent + [m], k, lengthTaken) == Wanting(sent, k, lengthTaken) + Frame(m)
  {
    hide Frame;
    assert (sent + [m])[k..] == sent[k..] + [m];
    FramesSnoc(sent[k..], m);
    assert k == |sent| ==> Frames(sent[k..]) == [];
    if k < |sent| {
      assert (sent + [m])[k + 1..] == sent[k + 1..] + [m];
      FramesSnoc(sent[k + 1..], m);
    }
  }

  lemma PublishMessageExpected(s: State)
    requires Inv(s) && Enabled(s, PublishMessage)
    ensures Expected(Apply(s, PublishMessage)) == Expected(s) + s.writer.message
  {
    var m, k, taken := s.writer.message, |s.received|, s.reader.TakingMessage?;
    WantingSnoc(s.sent, k, taken, m);
    hide Held, Encode, Wanting, WriterOk;
    var r := Apply(s, PublishMessage);
    assert r.received == s.received && r.reader == s.reader && r.sent == s.sent + [m] && r.writer.Resting?;
    hide Apply, Inv, Enabled;
    ConcatAssociates(Wanting(s.sent, k, taken), Encode(|m|, HEADER), m);
  }

  lemma PublishMessageKeeps(s: State)
    requires Inv(s) && Enabled(s, PublishMessage)
    ensures Inv(Apply(s, PublishMessage))
  {
    hide Held, Expected, Encode, Decode;
    var r, m := Apply(s, PublishMessage), s.writer.message;
    assert ToWrite(s.writer) == m;
    PublishAppends(s.data, s.head, s.tail, m);
    PublishMessageExpected(s);
    ReaderStays(s, r, m);
    assert r.sent[..|r.received|] == s.sent[..|s.received|];
  }

  /** Beyond the length of a header there is at least one whole message. */
  lemma MoreThanHeader(s: State)
    requires Inv(s) && !s.reader.TakingMessage?
    ensures Whole(s, |Held(s.data, s.head, s.tail)|)
  {
    var k := |s.received|;
    if k < |s.sent| { WantingStarts(s.sent, k); }
    hide Held, Encode, Decode, Frames;
  }

  lemma WantingStarts(sent: seq<seq<Byte>>, k: nat)
    requires k < |sent|
    ensures Wanting(sent, k, false) == Encode(|sent[k]|, HEADER) + Wanting(sent, k, true)
    ensures Wanting(sent, k, true) == sent[k] + Wanting(sent, k + 1, false)
  {
    hide Encode;
    assert sent[k..][1..] == sent[k + 1..];
    assert k + 1 == |sent| ==> Frames(sent[k + 1..]) == [];
  }

  lemma Front(a: seq<Byte>, b: seq<Byte>, c: seq<Byte>, q: seq<Byte>)
    requires q == a + b + c
    ensures |q| >= |a| && q[..|a|] == a && q[|a|..] == b + c
  {
  }

  /** What the writer knows stays true while the reader only makes room. */
  lemma WriterStays(s: State, r: State)
    requires InRing(s) && InRing(r) && WriterOk(s)
    requires r.writer == s.writer && r.data == s.data && r.head == s.head
    requires Spaces(|r.data|, r.head, r.tail) >= Spaces(|s.data|, s.head, s.tail)
    ensures WriterOk(r)
  {
  }

  lemma TakeHeaderKeeps(s: State)
    requires Inv(s) && Enabled(s, TakeHeader)
    ensures Inv(Apply(s, TakeHeader))
  {
    hide Held, Encode, Decode, Frames, Power, Wanting, Ahead, WriterOk, Pos, Spaces;
    var k, r := |s.received|, Apply(s, TakeHeader);
    var m, held, more := s.sent[k], Held(s.data, s.head, s.tail), Wanting(s.sent, k, true);
    assert m in s.sent;
    WantingStarts(s.sent, k);
    Front(Encode(|m|, HEADER), more, Ahead(s.writer), held);
    LengthRoundTrip(|m|, HEADER);
    TakeDrops(s.data, s.head, s.tail, HEADER);
    WriterStays(s, r);
    assert s.reader.got == Encode(|m|, HEADER);
    assert r.reader.count == |m|;
  }

  lemma TakeMessageKeeps(s: State)
    requires Inv(s) && Enabled(s, TakeMessage)
    ensures Inv(Apply(s, TakeMessage))
  {
    hide Held, Encode, Decode, Frames, Power, Wanting, Ahead, WriterOk, Pos, Spaces;
    var k, r := |s.received|, Apply(s, TakeMessage);
    var m, held := s.sent[k], Held(s.data, s.head, s.tail);
    WantingStarts(s.sent, k);
    Front(m, Wanting(s.sent, k + 1, false), Ahead(s.writer), held);
    TakeDrops(s.data, s.head, s.tail, |m|);
    WriterStays(s, r);
    assert s.reader.got == m;
    assert r.received == s.sent[..k + 1];
  }

  lemma ReadByteKeeps(s: State)
    requires Inv(s) && Enabled(s, ReadByte)
    ensures Inv(Apply(s, ReadByte))
  {
    hide Encode, Decode, Frames, Power, Expected, Spaces;
    var r, held, i := Apply(s, ReadByte), Held(s.data, s.head, s.tail), |Got(s.reader)|;
    assert Expected(r) == Expected(s) by { SameExpected(s, r); }
    assert i < |held|;
    assert held[..i + 1] == held[..i] + [held[i]];
  }

  lemma StepKeeps(s: State, step: Step)
    requires Inv(s) && Enabled(s, step)
    ensures Inv(Apply(s, step))
  {
    match step
    case WriteByte => WriteByteKeeps(s);
    case PublishHeader => PublishHeaderKeeps(s);
    case PublishMessage => PublishMessageKeeps(s);
    case ReadByte => ReadByteKeeps(s);
    case TakeHeader => TakeHeaderKeeps(s);
    case TakeMessage => TakeMessageKeeps(s);
    case BeginReceive(_) => MoreThanHeader(s); SimpleKeeps(s, step);
    case _ => SimpleKeeps(s, step);
  }

  lemma SimpleKeeps(s: State, step: Step)
    requires Inv(s) && Enabled(s, step)
    requires step.BeginSend? || step.DecideSend? || step.BeginReceive? || step.DecideReceive?
    requires step.BeginReceive? ==> Whole(s, |Held(s.data, s.head, s.tail)|)
    ensures Inv(Apply(s, step))
  {
    hide Held, Encode, Decode, Expected, Pos, Spaces;
    var r := Apply(s, step);
    SameExpected(s, r);
    if step.BeginSend? || step.DecideSend? {
      hide Whole;
      ReaderStays(s, r, []);
    }
  }

  lemma {:induction false} RunKeeps(s: State, steps: seq<Step>)
    requires Inv(s) && CanRun(s, steps)
    ensures Inv(Run(s, steps))
    decreases |steps|
  {
    hide Inv, Enabled, Apply;
    if steps != [] {
      StepKeeps(s, steps[0]);
      RunKeeps(Apply(s, steps[0]), steps[1..]);
    }
  }

  /** In every interleaving the messages received are the first of those sent, in order and
      each whole; and when both sides rest the buffer holds exactly the others. */
  lemma MessagesArriveWhole(data: seq<Byte>, steps: seq<Step>)
    requires |data| > 0 && CanRun(Start(data), steps)
    ensures var s := Run(Start(data), steps);
            && |s.received| <= |s.sent| && s.received == s.sent[..|s.received|]
            && InRing(s)
            && (s.writer.Resting? && s.reader.Waiting? ==>
                  Held(s.data, s.head, s.tail) == Frames(s.sent[|s.received|..]))
  {
    assert Frames([]) == [];
    assert Inv(Start(data));
    RunKeeps(Start(data), steps);
    hide Run, CanRun;
    var s := Run(Start(data), steps);
    if s.writer.Resting? && s.reader.Waiting? {
      assert Expected(s) == Frames(s.sent[|s.received|..]);
    }
  }
}
