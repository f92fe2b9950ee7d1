/**
 Sending and receiving get done: whatever the other side is in the middle of, a writer that has
 seen room finishes its message, and a reader for whom a message is there finishes taking it.
 */
module MessageProgress {
  import opened StreamBuffers
  import opened MessageInterleaving

  lemma StepFirst(s: State, step: Step, rest: seq<Step>)
    requires Enabled(s, step) && CanRun(Apply(s, step), rest)
    ensures CanRun(s, [step] + rest) && Run(s, [step] + rest) == Run(Apply(s, step), rest)
  {
    hide Enabled, Apply;
    assert ([step] + rest)[1..] == rest;
  }

  // ---- the writer -----------------------------------------------------------------------------------

  function WriterNext(w: Writer): Step {
    match w
    case Resting => DecideSend
    case SawSpace(_, _) => DecideSend
    case CopyingHeader(_, i) => if i < HEADER then WriteByte else PublishHeader
    case CopyingMessage(m, i) => if i < |m| then WriteByte else PublishMessage
  }

  /** The steps the writer has yet to take, at most. */
  function WriterLeft(w: Writer): nat {
    match w
    case Resting => 0
    case SawSpace(m, _) => 3 + HEADER + |m| + 1
    case CopyingHeader(m, i) => (if i < HEADER then HEADER - i else 0) + |m| + 3
    case CopyingMessage(m, i) => (if i < |m| then |m| - i else 0) + 1
  }

  /** It has seen enough room, or none is needed any more. */
  predicate GoesAhead(w: Writer) {
    match w
    case Resting => false
    case SawSpace(m, space) => space >= |m| + HEADER
    case CopyingHeader(_, _) => true
    case CopyingMessage(_, _) => true
  }

  lemma WriterCan(s: State)
    requires Inv(s) && !s.writer.Resting?
    ensures Enabled(s, WriterNext(s.writer))
  {
    hide Held, Encode, Decode, Expected, ReaderOk;
  }

  /** A busy writer can always take its next step, and is nearer its end then. */
  lemma WriterAdvances(s: State)
    requires Inv(s) && !s.writer.Resting?
    ensures Enabled(s, WriterNext(s.writer))
    ensures var r := Apply(s, WriterNext(s.writer));
            && WriterLeft(r.writer) < WriterLeft(s.writer)
            && r.reader == s.reader && r.received == s.received
            && if r.writer.Resting? then
                 r.sent == if GoesAhead(s.writer) then s.sent + [s.writer.message] else s.sent
               else r.sent == s.sent && r.writer.message == s.writer.message
                    && (GoesAhead(r.writer) <==> GoesAhead(s.writer))
  {
    WriterCan(s);
    hide Held, Encode, Decode, Expected, Pos, Spaces, ReaderOk, Inv, InRing;
    CopiesAll(s.writer);
  }

  lemma CopiesAll(w: Writer)
    ensures |ToWrite(w)| == match w case CopyingHeader(_, _) => HEADER case CopyingMessage(m, _) => |m| case _ => 0
  {
    hide Encode;
  }

  /** So its call ends, with the message sent exactly if it goes ahead. */
  lemma {:induction false} FinishesSend(s: State) returns (steps: seq<Step>)
    requires Inv(s)
    ensures CanRun(s, steps)
    ensures var r := Run(s, steps);
            && Inv(r) && r.writer.Resting? && r.reader == s.reader && r.received == s.received
            && r.sent == if GoesAhead(s.writer) then s.sent + [s.writer.message] else s.sent
    decreases WriterLeft(s.writer)
  {
    hide Inv, Enabled, Apply, WriterNext, WriterLeft;
    if s.writer.Resting? {
      steps := [];
    } else {
      WriterAdvances(s);
      StepKeeps(s, WriterNext(s.writer));
      var u := Apply(s, WriterNext(s.writer));
      var rest := FinishesSend(u);
      StepFirst(s, WriterNext(s.writer), rest);
      steps := [WriterNext(s.writer)] + rest;
    }
  }

  /** A message goes in exactly if there is room for it and its length. */
  lemma SendsIfRoom(s: State, m: seq<Byte>) returns (steps: seq<Step>)
    requires Inv(s) && s.writer.Resting? && Sendable(m)
    ensures CanRun(s, [BeginSend(m)] + steps)
    ensures var r := Run(s, [BeginSend(m)] + steps);
            && Inv(r) && r.writer.Resting?
            && r.sent == if Spaces(|s.data|, s.head, s.tail) >= |m| + HEADER then s.sent + [m] else s.sent
  {
    assert Enabled(s, BeginSend(m));
    var u := Apply(s, BeginSend(m));
    assert u.writer == SawSpace(m, Spaces(|s.data|, s.head, s.tail)) && u.sent == s.sent;
    hide Inv, Enabled, Apply;
    StepKeeps(s, BeginSend(m));
    steps := FinishesSend(u);
    StepFirst(s, BeginSend(m), steps);
  }

  // ---- the reader -----------------------------------------------------------------------------------

  function ReaderNext(r: Reader): Step {
    match r
    case Waiting => DecideReceive
    case SawBytes(_, _) => DecideReceive
    case TakingHeader(_, _, got) => if |got| < HEADER then ReadByte else TakeHeader
    case TakingMessage(count, got) => if |got| < count then ReadByte else TakeMessage
  }

  /** How far it has yet to go; the message it will meet is m. */
  function ReaderLeft(r: Reader, m: seq<Byte>): nat {
    match r
    case Waiting => 0
    case SawBytes(_, _) => HEADER + |m| + 4
    case TakingHeader(_, _, got) => (if |got| < HEADER then HEADER - |got| else 0) + |m| + 3
    case TakingMessage(count, got) => (if |got| < count then count - |got| else 0) + 1
  }

  /** It has seen more than a length, or is past looking. */
  predicate Takes(r: Reader) {
    match r
    case Waiting => false
    case SawBytes(available, _) => available > HEADER
    case TakingHeader(_, _, _) => true
    case TakingMessage(_, _) => true
  }

  /** The message the reader is about to meet. */
  function NextMessage(s: State): seq<Byte> {
    if |s.received| < |s.sent| then s.sent[|s.received|] else []
  }

  predicate Roomy(s: State) {
    match s.reader
    case SawBytes(_, capacity) => capacity >= |NextMessage(s)|
    case TakingHeader(_, capacity, _) => capacity >= |NextMessage(s)|
    case _ => true
  }

  lemma ReaderCan(s: State)
    requires Inv(s) && !s.reader.Waiting? && Roomy(s)
    ensures Enabled(s, ReaderNext(s.reader))
    ensures Takes(s.reader) ==> |s.received| < |s.sent|
    ensures s.reader.TakingHeader? && |s.reader.got| == HEADER ==> Decode(s.reader.got) == |NextMessage(s)|
    ensures s.reader.TakingMessage? ==> s.reader.count == |NextMessage(s)|
    ensures s.reader.TakingMessage? && |s.reader.got| == s.reader.count ==> s.reader.got == NextMessage(s)
    ensures |Got(s.reader)| <= ToRead(s.reader)
    ensures s.reader.TakingHeader? ==> s.reader.available >= HEADER + |NextMessage(s)|
  {
    hide Encode, Decode, Held, Frames, Wanting, Ahead, WriterOk, Pos, Spaces;
    var k, held := |s.received|, Held(s.data, s.head, s.tail);
    if s.reader.TakingHeader? {
      var m := s.sent[k];
      assert m in s.sent;
      WantingStarts(s.sent, k);
      Front(Encode(|m|, HEADER), Wanting(s.sent, k, true), Ahead(s.writer), held);
      LengthRoundTrip(|m|, HEADER);
      assert |s.reader.got| == HEADER ==> s.reader.got == Encode(|m|, HEADER);
    } else if s.reader.TakingMessage? {
      WantingStarts(s.sent, k);
      Front(s.sent[k], Wanting(s.sent, k + 1, false), Ahead(s.writer), held);
    }
  }

  /** A busy reader can always take its next step, and is nearer its end then. */
  lemma ReaderAdvances(s: State)
    requires Inv(s) && !s.reader.Waiting? && Roomy(s)
    ensures Enabled(s, ReaderNext(s.reader))
    ensures var r, m := Apply(s, ReaderNext(s.reader)), NextMessage(s);
            && ReaderLeft(r.reader, m) < ReaderLeft(s.reader, m)
            && r.writer == s.writer && r.sent == s.sent
            && if r.reader.Waiting? then
                 r.received == if Takes(s.reader) then s.received + [m] else s.received
               else r.received == s.received && Roomy(r) && (Takes(r.reader) <==> Takes(s.reader))
  {
    ReaderCan(s);
    hide Held, Encode, Decode, Expected, Pos, Spaces, WriterOk, Inv, InRing;
  }

  lemma {:induction false} FinishesReceive(s: State) returns (steps: seq<Step>)
    requires Inv(s) && Roomy(s)
    ensures CanRun(s, steps)
    ensures var r := Run(s, steps);
            && Inv(r) && r.reader.Waiting? && r.writer == s.writer && r.sent == s.sent
            && r.received == if Takes(s.reader) then s.received + [NextMessage(s)] else s.received
    decreases ReaderLeft(s.reader, NextMessage(s))
  {
    hide Inv, Enabled, Apply, ReaderNext, ReaderLeft, Roomy;
    if s.reader.Waiting? {
      steps := [];
    } else {
      ReaderAdvances(s);
      StepKeeps(s, ReaderNext(s.reader));
      var u := Apply(s, ReaderNext(s.reader));
      if u.reader.Waiting? {
        steps := [ReaderNext(s.reader)];
        StepFirst(s, ReaderNext(s.reader), []);
        assert [ReaderNext(s.reader)] + [] == steps;
      } else {
        var rest := FinishesReceive(u);
        StepFirst(s, ReaderNext(s.reader), rest);
        steps := [ReaderNext(s.reader)] + rest;
      }
    }
  }

  lemma MessageIsThere(s: State)
    requires Inv(s) && s.reader.Waiting? && |s.received| < |s.sent|
    ensures |Held(s.data, s.head, s.tail)| > HEADER
  {
    hide Held, Encode, Decode, Frames, Pos, Spaces, WriterOk, ReaderOk, Power;
    var k := |s.received|;
    assert s.sent[k] in s.sent;
    WantingStarts(s.sent, k);
  }

  /** A message that has been sent and not received can be received, whole, with a buffer large
      enough for it. */
  lemma ReceivesIfSent(s: State, capacity: nat) returns (steps: seq<Step>)
    requires Inv(s) && s.reader.Waiting? && |s.received| < |s.sent| && capacity >= |s.sent[|s.received|]|
    ensures CanRun(s, [BeginReceive(capacity)] + steps)
    ensures var r := Run(s, [BeginReceive(capacity)] + steps);
            Inv(r) && r.reader.Waiting? && r.received == s.received + [s.sent[|s.received|]]
  {
    MessageIsThere(s);
    assert Enabled(s, BeginReceive(capacity));
    var u := Apply(s, BeginReceive(capacity));
    assert u.reader == SawBytes(|Held(s.data, s.head, s.tail)|, capacity) && u.sent == s.sent && u.received == s.received;
    hide Inv, Enabled, Apply, Held;
    StepKeeps(s, BeginReceive(capacity));
    steps := FinishesReceive(u);
    StepFirst(s, BeginReceive(capacity), steps);
  }
}
