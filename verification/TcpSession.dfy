/** One TCP session: the bounded send queue with its write loop, the read loop, and what crosses the wire. */
module TcpSession {
  import opened Bytes
  import opened Packet

  predicate IsFrame(f: seq<byte>) {
    HEADER_SIZE <= |f| < TWO_TO_16 && ParseHeader(f[..HEADER_SIZE]).size == |f|
  }

  /** A packet as queued: its header announces its own length. */
  type Frame = seq<byte>

  ghost predicate AllFrames(fs: seq<Frame>) {
    forall f <- fs :: IsFrame(f)
  }

  ghost predicate AllFit(fs: seq<Frame>, limit: nat) {
    forall f <- fs :: |f| <= limit
  }

  function FrameMessage(f: Frame): Message
    requires IsFrame(f)
  {
    Message(ParseHeader(f[..HEADER_SIZE]).kind, f[HEADER_SIZE..])
  }

  ghost function FrameMessages(fs: seq<Frame>): (r: seq<Message>)
    requires AllFrames(fs)
    ensures |r| == |fs|
  {
    seq(|fs|, i requires 0 <= i < |fs| => FrameMessage(fs[i]))
  }

  /** async_send copies header and body; a null body is sent as zeros, an ill-sized packet not at all. */
  function BuildFrame(header: Header, body: Option<seq<byte>>, maxPacket: nat): (r: Option<Frame>)
    requires body.Some? ==> header.size <= HEADER_SIZE + |body.value|
    ensures r.Some? <==> HEADER_SIZE <= header.size <= maxPacket
    ensures r.Some? ==> IsFrame(r.value) && |r.value| == header.size
    ensures r.Some? && body.Some? ==> FrameMessage(r.value) == Message(header.kind, body.value[..header.size - HEADER_SIZE])
    ensures r.Some? && body.None? ==> FrameMessage(r.value).kind == header.kind && forall b <- FrameMessage(r.value).body :: b == 0
  {
    if header.size < HEADER_SIZE || header.size > maxPacket then None
    else
      var n := header.size - HEADER_SIZE;
      var payload := if body.Some? then body.value[..n] else seq(n, _ => 0);
      var f := HeaderBytes(header) + payload;
      assert f[..HEADER_SIZE] == HeaderBytes(header) && f[HEADER_SIZE..] == payload;
      Some(f)
  }

  datatype Limits = Limits(maxPacket: nat, maxMessages: nat, maxBytes: nat)

  /** A write_loop coroutine: spawned and not yet run, or suspended in async_write of the front message. */
  datatype Writer = Spawned | Writing

  /** What has happened so far; the code does not store this. `frontSent` counts the sent bytes of the front message. */
  datatype Past = Past(
    failed: bool,
    frontSent: nat,
    written: seq<Frame>,
    accepted: seq<Frame>,
    lossyOffered: seq<Frame>,
    lossyAccepted: seq<Frame>,
    wire: seq<byte>)

  /** The session on its strand. */
  datatype State = State(
    queue: seq<Frame>,
    queuedBytes: int,
    queuedMessagesAtomic: int,
    queuedBytesAtomic: int,
    writers: seq<Writer>,
    open: bool,
    dropCount: nat,
    dropBytes: nat,
    txBytes: nat,
    past: Past)

  const FRESH := State([], 0, 0, 0, [], true, 0, 0, 0, Past(false, 0, [], [], [], [], []))

  /** Everything that can happen on the strand. Writer `i` is the i-th write_loop still alive. */
  datatype Event =
    | AsyncSend(header: Header, body: Option<seq<byte>>, lossy: bool)
    | WriterStarts(i: nat)
    | WriteSome(i: nat, n: nat)
    | WriteCompletes(i: nat)
    | WriteFails(i: nat)
    | Close

  predicate Overflows(L: Limits, s: State, size: nat) {
    |s.queue| + 1 > L.maxMessages || s.queuedBytes + size > L.maxBytes
  }

  function Push(s: State, m: Frame): State {
    var q := s.queue + [m];
    s.(queue := q,
       queuedBytes := s.queuedBytes + |m|,
       queuedMessagesAtomic := |q|,
       queuedBytesAtomic := s.queuedBytes + |m|,
       writers := if s.queue == [] then s.writers + [Spawned] else s.writers,
       past := s.past.(accepted := s.past.accepted + [m]))
  }

  /** Reliable overflow closes the socket, the message is lost. */
  function EnqueueClose(L: Limits, s: State, m: Frame): State {
    if Overflows(L, s, |m|) then s.(open := false) else Push(s, m)
  }

  function CountDrop(s: State, m: Frame): State {
    s.(dropCount := s.dropCount + 1, dropBytes := s.dropBytes + |m|,
       past := s.past.(lossyOffered := s.past.lossyOffered + [m]))
  }

  function CountLossy(s: State, m: Frame): State {
    s.(past := s.past.(lossyOffered := s.past.lossyOffered + [m], lossyAccepted := s.past.lossyAccepted + [m]))
  }

  /** Lossy overflow drops the newest message and counts it. */
  function EnqueueDrop(L: Limits, s: State, m: Frame): State {
    if Overflows(L, s, |m|) then CountDrop(s, m) else Push(CountLossy(s, m), m)
  }

  /** The test at the top of write_loop: wait in async_write of the front, or end. */
  function LoopTop(s: State, i: nat): State
    requires i < |s.writers|
  {
    s.(writers := if s.queue == [] then s.writers[..i] + s.writers[i + 1..] else s.writers[i := Writing],
       past := s.past.(frontSent := 0))
  }

  function PopFront(s: State): State
    requires s.queue != []
  {
    var m, q := s.queue[0], s.queue[1..];
    s.(queue := q,
       queuedBytes := s.queuedBytes - |m|,
       queuedMessagesAtomic := |q|,
       queuedBytesAtomic := s.queuedBytes - |m|,
       txBytes := s.txBytes + |m|,
       past := s.past.(written := s.past.written + [m]))
  }

  predicate WriterIs(s: State, i: nat, w: Writer) {
    i < |s.writers| && s.writers[i] == w
  }

  /** One strand step. An event that cannot happen in `s` leaves it as it is. */
  function Step(L: Limits, s: State, e: Event): State {
    match e
    case AsyncSend(h, body, lossy) =>
      if body.Some? && h.size > HEADER_SIZE + |body.value| then s
      else (match BuildFrame(h, body, L.maxPacket)
            case None => s
            case Some(m) => if lossy then EnqueueDrop(L, s, m) else EnqueueClose(L, s, m))
    case WriterStarts(i) =>
      if WriterIs(s, i, Spawned) then LoopTop(s, i) else s
    case WriteSome(i, n) =>
      if WriterIs(s, i, Writing) && s.open && s.queue != [] && s.past.frontSent + n <= |s.queue[0]| then
        s.(past := s.past.(wire := s.past.wire + s.queue[0][s.past.frontSent..s.past.frontSent + n],
                           frontSent := s.past.frontSent + n))
      else s
    case WriteCompletes(i) =>
      if WriterIs(s, i, Writing) && s.queue != [] && s.past.frontSent == |s.queue[0]| then LoopTop(PopFront(s), i) else s
    case WriteFails(i) =>
      if WriterIs(s, i, Writing) then s.(writers := s.writers[..i] + s.writers[i + 1..], open := false,
           past := s.past.(failed := true)) else s
    case Close => s.(open := false)
  }

  function Run(L: Limits, s: State, es: seq<Event>): State
    decreases |es|
  {
    if es == [] then s else Run(L, Step(L, s, es[0]), es[1..])
  }

  /** One writer at most, alive as long as there is something to write and no write has failed. */
  predicate WriterOk(s: State) {
    && |s.writers| <= 1
    && (|s.writers| == 1 <==> s.queue != [] && !s.past.failed)
    && (s.past.failed ==> s.queue != [] && !s.open)
  }

  predicate QueueOk(L: Limits, s: State) {
    && s.queuedBytes == s.queuedBytesAtomic == TotalLength(s.queue)
    && s.queuedMessagesAtomic == |s.queue|
    && |s.queue| <= L.maxMessages && s.queuedBytes <= L.maxBytes
  }

  ghost predicate HistoryOk(L: Limits, s: State) {
    && s.past.accepted == s.past.written + s.queue
    && AllFrames(s.past.accepted) && AllFit(s.past.accepted, L.maxPacket)
    && s.txBytes == TotalLength(s.past.written)
  }

  /** The wire carries the written frames and the sent part of the front one. */
  predicate WireOk(s: State) {
    && (s.queue == [] ==> s.past.frontSent == 0)
    && (s.queue != [] ==> s.past.frontSent <= |s.queue[0]|)
    && (s.writers == [Spawned] ==> s.past.frontSent == 0)
    && s.past.wire == Flatten(s.past.written) + (if s.queue == [] then [] else s.queue[0][..s.past.frontSent])
  }

  predicate LossyOk(s: State) {
    && |s.past.lossyOffered| == |s.past.lossyAccepted| + s.dropCount
    && TotalLength(s.past.lossyOffered) == TotalLength(s.past.lossyAccepted) + s.dropBytes
  }

  /** What every strand step keeps. */
  ghost predicate Inv(L: Limits, s: State) {
    WriterOk(s) && QueueOk(L, s) && HistoryOk(L, s) && WireOk(s) && LossyOk(s)
  }

  lemma FreshInv(L: Limits)
    ensures Inv(L, FRESH)
  {}

  lemma PushInv(L: Limits, s: State, m: Frame)
    requires Inv(L, s) && !Overflows(L, s, |m|) && IsFrame(m) && |m| <= L.maxPacket
    ensures Inv(L, Push(s, m))
  {
    FlattenSnoc(s.queue, m);
  }

  /** A lossy message is counted as offered, and then either as accepted or as dropped. */
  lemma LossyDropInv(L: Limits, s: State, m: Frame)
    requires Inv(L, s)
    ensures Inv(L, CountDrop(s, m))
  {
    FlattenSnoc(s.past.lossyOffered, m);
  }

  lemma LossyAcceptInv(L: Limits, s: State, m: Frame)
    requires Inv(L, s)
    ensures Inv(L, CountLossy(s, m))
  {
    FlattenSnoc(s.past.lossyOffered, m);
    FlattenSnoc(s.past.lossyAccepted, m);
  }

  lemma CompleteWire(s: State)
    requires WireOk(s) && s.queue != [] && s.writers == [Writing] && s.past.frontSent == |s.queue[0]|
    ensures WireOk(LoopTop(PopFront(s), 0))
  {
    var m := s.queue[0];
    FlattenSnoc(s.past.written, m);
    assert m[..|m|] == m;
    var t := LoopTop(PopFront(s), 0);
    assert t.past.wire == Flatten(t.past.written);
    if t.queue != [] {
      assert t.queue[0][..0] == [];
    }
  }

  lemma CompleteHistory(L: Limits, s: State)
    requires HistoryOk(L, s) && s.queue != [] && s.writers == [Writing]
    ensures HistoryOk(L, LoopTop(PopFront(s), 0))
  {
    FlattenSnoc(s.past.written, s.queue[0]);
    assert s.past.written + s.queue == s.past.written + [s.queue[0]] + s.queue[1..];
  }

  lemma CompleteQueue(L: Limits, s: State)
    requires QueueOk(L, s) && s.queue != [] && s.writers == [Writing]
    ensures QueueOk(L, LoopTop(PopFront(s), 0))
  {}

  lemma CompleteInv(L: Limits, s: State)
    requires Inv(L, s) && s.writers == [Writing] && s.past.frontSent == |s.queue[0]|
    ensures Inv(L, LoopTop(PopFront(s), 0))
  {
    hide QueueOk, HistoryOk, WireOk;
    CompleteWire(s);
    CompleteHistory(L, s);
    CompleteQueue(L, s);
  }

  lemma WriteSomeWire(L: Limits, s: State, n: nat)
    requires WireOk(s) && s.writers == [Writing] && s.open && s.queue != [] && s.past.frontSent + n <= |s.queue[0]|
    ensures WireOk(Step(L, s, WriteSome(0, n)))
  {
    hide Flatten;
    var f, k := s.queue[0], s.past.frontSent;
    assert f[..k + n] == f[..k] + f[k..k + n];
  }

  lemma WriteSomeInv(L: Limits, s: State, n: nat)
    requires Inv(L, s) && s.writers == [Writing] && s.open && s.past.frontSent + n <= |s.queue[0]|
    ensures Inv(L, Step(L, s, WriteSome(0, n)))
  {
    hide WireOk;
    WriteSomeWire(L, s, n);
  }

  lemma WriterStartsInv(L: Limits, s: State)
    requires Inv(L, s) && s.writers == [Spawned]
    ensures Inv(L, LoopTop(s, 0))
  {}

  lemma WriteFailsInv(L: Limits, s: State)
    requires Inv(L, s) && s.writers == [Writing]
    ensures Inv(L, Step(L, s, WriteFails(0)))
  {}

  lemma SendInv(L: Limits, s: State, m: Frame, lossy: bool)
    requires Inv(L, s) && IsFrame(m) && |m| <= L.maxPacket
    ensures Inv(L, if lossy then EnqueueDrop(L, s, m) else EnqueueClose(L, s, m))
  {
    if Overflows(L, s, |m|) {
      LossyDropInv(L, s, m);
    } else if lossy {
      LossyAcceptInv(L, s, m);
      PushInv(L, CountLossy(s, m), m);
    } else {
      PushInv(L, s, m);
    }
  }

  lemma StepInv(L: Limits, s: State, e: Event)
    requires Inv(L, s)
    ensures Inv(L, Step(L, s, e))
  {
    if Step(L, s, e) != s {
      match e
      case AsyncSend(h, body, lossy) => SendInv(L, s, BuildFrame(h, body, L.maxPacket).value, lossy);
      case WriterStarts(i) => WriterStartsInv(L, s);
      case WriteSome(i, n) => WriteSomeInv(L, s, n);
      case WriteCompletes(i) => CompleteInv(L, s);
      case WriteFails(i) => WriteFailsInv(L, s);
      case Close =>
    }
  }

  /** In every run: one writer at most, limits kept, nothing reordered, nothing lost uncounted. */
  lemma {:induction false} RunInv(L: Limits, s: State, es: seq<Event>)
    requires Inv(L, s)
    ensures Inv(L, Run(L, s, es))
    decreases |es|
  {
    if es == [] {
    } else {
      StepInv(L, s, es[0]);
      RunInv(L, Step(L, s, es[0]), es[1..]);
    }
  }

  /** A packet of legal size is queued when it fits; when it does not, only a reliable send costs the connection. */
  lemma SendOutcome(L: Limits, s: State, h: Header, body: Option<seq<byte>>, lossy: bool)
    requires Inv(L, s) && (body.Some? ==> h.size <= HEADER_SIZE + |body.value|)
    ensures var t, m := Step(L, s, AsyncSend(h, body, lossy)), BuildFrame(h, body, L.maxPacket);
            var fits := m.Some? && |s.queue| < L.maxMessages && TotalLength(s.queue) + |m.value| <= L.maxBytes;
            var dropped := lossy && m.Some? && !fits;
            && t.queue == (if fits then s.queue + [m.value] else s.queue)
            && t.past.accepted == (if fits then s.past.accepted + [m.value] else s.past.accepted)
            && t.writers == (if fits && s.queue == [] then s.writers + [Spawned] else s.writers)
            && (t.open <==> s.open && (fits || lossy || m.None?))
            && t.dropCount == s.dropCount + (if dropped then 1 else 0)
            && t.dropBytes == s.dropBytes + (if dropped then |m.value| else 0)
            && t.txBytes == s.txBytes && t.past.wire == s.past.wire && t.past.written == s.past.written
            && t.past.failed == s.past.failed && t.past.frontSent == s.past.frontSent
  {}

  /** A failed write loop leaves its queue non-empty, so no later send spawns another. */
  ghost predicate Stopped(s: State) {
    s.past.failed && s.queue != [] && s.writers == []
  }

  lemma FailedIsStopped(L: Limits, s: State)
    requires Inv(L, s) && s.past.failed
    ensures Stopped(s)
  {}

  lemma StepStopped(L: Limits, s: State, e: Event)
    requires Stopped(s)
    ensures var t := Step(L, s, e);
            Stopped(t) && t.past.wire == s.past.wire && t.past.written == s.past.written && s.queue <= t.queue
  {}

  lemma {:induction false} StoppedStays(L: Limits, s: State, es: seq<Event>)
    requires Stopped(s)
    ensures var t := Run(L, s, es);
            Stopped(t) && t.past.wire == s.past.wire && t.past.written == s.past.written && s.queue <= t.queue
    decreases |es|
  {
    if es == [] {
    } else {
      StepStopped(L, s, es[0]);
      StoppedStays(L, Step(L, s, es[0]), es[1..]);
    }
  }

  lemma {:induction false} RunAppend(L: Limits, s: State, es: seq<Event>, more: seq<Event>)
    ensures Run(L, s, es + more) == Run(L, Run(L, s, es), more)
    decreases |es|
  {
    hide Step;
    if es == [] {
      assert es + more == more;
    } else {
      assert (es + more)[1..] == es[1..] + more;
      RunAppend(L, Step(L, s, es[0]), es[1..], more);
    }
  }

  /** Once a write has failed in a run, nothing that follows sends one more byte, though messages may still be queued. */
  lemma FailureIsFinal(L: Limits, es: seq<Event>, more: seq<Event>)
    requires Run(L, FRESH, es).past.failed
    ensures var s, t := Run(L, FRESH, es), Run(L, FRESH, es + more);
            && t.past.failed && t.writers == []
            && t.past.wire == s.past.wire && t.past.written == s.past.written && s.queue <= t.queue
  {
    FreshInv(L);
    RunInv(L, FRESH, es);
    FailedIsStopped(L, Run(L, FRESH, es));
    hide Run, Inv;
    RunAppend(L, FRESH, es, more);
    StoppedStays(L, Run(L, FRESH, es), more);
  }

  lemma ClosedStep(L: Limits, s: State, e: Event)
    requires !s.open
    ensures !Step(L, s, e).open && Step(L, s, e).past.wire == s.past.wire
  {}

  lemma {:induction false} ClosedStays(L: Limits, s: State, es: seq<Event>)
    requires !s.open
    ensures !Run(L, s, es).open && Run(L, s, es).past.wire == s.past.wire
    decreases |es|
  {
    hide Step;
    if es == [] {
    } else {
      ClosedStep(L, s, es[0]);
      ClosedStays(L, Step(L, s, es[0]), es[1..]);
    }
  }

  /** A socket that has been closed, for whatever reason, is never open again and never sends another byte. */
  lemma ClosedIsFinal(L: Limits, es: seq<Event>, more: seq<Event>)
    requires !Run(L, FRESH, es).open
    ensures var s, t := Run(L, FRESH, es), Run(L, FRESH, es + more); !t.open && t.past.wire == s.past.wire
  {
    hide Run;
    RunAppend(L, FRESH, es, more);
    ClosedStays(L, Run(L, FRESH, es), more);
  }

  /** A close takes effect at once: whatever follows it, the bytes sent before it are all the bytes ever sent. */
  lemma CloseIsFinal(L: Limits, es: seq<Event>, more: seq<Event>)
    ensures var s, t := Run(L, FRESH, es), Run(L, FRESH, es + [Close] + more); !t.open && t.past.wire == s.past.wire
  {
    var s := Run(L, FRESH, es);
    RunAppend(L, FRESH, es, [Close]);
    assert Run(L, s, [Close]) == Step(L, s, Close) by {
      assert [Close][1..] == [];
    }
    hide Run;
    ClosedIsFinal(L, es + [Close], more);
  }

  // ---- nothing accepted is stuck ----

  /** The front message leaves: the writer starts if it has not, sends what is unsent, and completes. */
  function SendFront(s: State): seq<Event>
    requires s.queue != [] && s.past.frontSent <= |s.queue[0]|
  {
    (if s.writers == [Spawned] then [WriterStarts(0)] else []) + [WriteSome(0, |s.queue[0]| - s.past.frontSent), WriteCompletes(0)]
  }

  lemma RunOne(L: Limits, s: State, e: Event)
    ensures Run(L, s, [e]) == Step(L, s, e)
  {
    hide Step;
    assert [e][1..] == [];
  }

  lemma RunTwo(L: Limits, s: State, e: Event, f: Event)
    ensures Run(L, s, [e, f]) == Step(L, Step(L, s, e), f)
  {
    hide Step, Run;
    RunOne(L, s, e);
    RunOne(L, Step(L, s, e), f);
    RunAppend(L, s, [e], [f]);
    assert [e] + [f] == [e, f];
  }

  lemma WritesFront(L: Limits, s: State)
    requires s.writers == [Writing] && s.open && s.queue != [] && s.past.frontSent <= |s.queue[0]|
    ensures var t := Step(L, Step(L, s, WriteSome(0, |s.queue[0]| - s.past.frontSent)), WriteCompletes(0));
            t.open && t.queue == s.queue[1..] && t.past.accepted == s.past.accepted
  {}

  lemma FrontLeaves(L: Limits, s: State)
    requires WriterOk(s) && WireOk(s) && s.open && s.queue != []
    ensures var t := Run(L, s, SendFront(s));
            t.open && t.queue == s.queue[1..] && t.past.accepted == s.past.accepted
  {
    var write := [WriteSome(0, |s.queue[0]| - s.past.frontSent), WriteCompletes(0)];
    var started := if s.writers == [Spawned] then Step(L, s, WriterStarts(0)) else s;
    if s.writers[0] == Spawned {
      assert s.writers == [Spawned] && started == LoopTop(s, 0);
      assert started.writers == [Writing];
    } else {
      assert s.writers == [Writing];
    }
    assert started.writers == [Writing] && started.queue == s.queue && started.open
           && started.past.accepted == s.past.accepted && started.past.frontSent == s.past.frontSent;
    hide Run, Step, WriterOk, WireOk;
    RunTwo(L, started, write[0], write[1]);
    WritesFront(L, started);
    if s.writers == [Spawned] {
      RunOne(L, s, WriterStarts(0));
      RunAppend(L, s, [WriterStarts(0)], write);
    } else {
      assert SendFront(s) == write;
    }
  }

  lemma {:induction false} QueueCanDrain(L: Limits, s: State) returns (es: seq<Event>)
    requires Inv(L, s) && s.open
    ensures var t := Run(L, s, es); t.open && t.queue == [] && t.past.accepted == s.past.accepted
    decreases |s.queue|
  {
    if s.queue == [] {
      es := [];
    } else {
      var front := SendFront(s);
      FrontLeaves(L, s);
      RunInv(L, s, front);
      hide Run, Inv, SendFront;
      var rest := QueueCanDrain(L, Run(L, s, front));
      es := front + rest;
      RunAppend(L, s, front, rest);
    }
  }

  lemma EmptyQueueWire(L: Limits, s: State)
    requires HistoryOk(L, s) && WireOk(s) && s.queue == []
    ensures s.past.wire == Flatten(s.past.accepted)
  {
    assert s.past.written + [] == s.past.written;
  }

  /** While the socket is open, some continuation of any run puts every accepted frame on the wire in full, in order. */
  lemma EverythingCanBeSent(L: Limits, es: seq<Event>) returns (more: seq<Event>)
    requires Run(L, FRESH, es).open
    ensures var s, t := Run(L, FRESH, es), Run(L, FRESH, es + more);
            t.open && t.past.accepted == s.past.accepted && t.past.wire == Flatten(s.past.accepted)
  {
    FreshInv(L);
    RunInv(L, FRESH, es);
    hide Run, WriterOk, QueueOk, HistoryOk, WireOk, LossyOk;
    var s := Run(L, FRESH, es);
    more := QueueCanDrain(L, s);
    RunAppend(L, FRESH, es, more);
    RunInv(L, FRESH, es + more);
    EmptyQueueWire(L, Run(L, FRESH, es + more));
  }

  /** The cross-thread check of can_accept_send agrees with the enqueue test between strand steps. */
  predicate CanAcceptSend(L: Limits, s: State, size: nat) {
    !(s.queuedMessagesAtomic + 1 > L.maxMessages) && !(s.queuedBytesAtomic + size > L.maxBytes)
  }

  lemma CanAcceptIsEnqueueTest(L: Limits, s: State, m: Frame)
    requires QueueOk(L, s)
    ensures CanAcceptSend(L, s, |m|) <==> EnqueueDrop(L, s, m).dropCount == s.dropCount
    ensures CanAcceptSend(L, s, |m|) <==> EnqueueDrop(L, s, m).past.accepted == s.past.accepted + [m]
  {
    assert |s.past.accepted + [m]| != |s.past.accepted|;
  }

  lemma CanAcceptSendIsExact(L: Limits, es: seq<Event>, m: Frame)
    requires IsFrame(m) && |m| <= L.maxPacket
    ensures var s := Run(L, FRESH, es);
            && (CanAcceptSend(L, s, |m|) <==> EnqueueDrop(L, s, m).dropCount == s.dropCount)
            && (CanAcceptSend(L, s, |m|) <==> EnqueueDrop(L, s, m).past.accepted == s.past.accepted + [m])
  {
    hide Run, WriterOk, HistoryOk, WireOk, LossyOk, CanAcceptSend, EnqueueDrop;
    FreshInv(L);
    RunInv(L, FRESH, es);
    CanAcceptIsEnqueueTest(L, Run(L, FRESH, es), m);
  }

  // ---- read loop ----

  datatype End = NeedMore | TooSmall | TooBig | Rejected

  datatype Reading = Reading(delivered: seq<Message>, end: End)

  /** What read_loop hands to the handler when these bytes, and no more, have arrived. */
  function Read(limit: nat, accepts: Message -> bool, input: seq<byte>): Reading
  {
    if |input| < HEADER_SIZE then Reading([], NeedMore)
    else
      var h := ParseHeader(input[..HEADER_SIZE]);
      if h.size < HEADER_SIZE then Reading([], TooSmall)
      else if h.size > limit then Reading([], TooBig)
      else if |input| < h.size then Reading([], NeedMore)
      else
        var m := Message(h.kind, input[HEADER_SIZE..h.size]);
        if !accepts(m) then Reading([m], Rejected)
        else
          var rest := Read(limit, accepts, input[h.size..]);
          Reading([m] + rest.delivered, rest.end)
  }

  /** read_loop over the received bytes: two exact reads per packet until one cannot be met or a check throws. */
  method ReadLoop(limit: nat, accepts: Message -> bool, input: seq<byte>) returns (delivered: seq<Message>, end: End)
    ensures Reading(delivered, end) == Read(limit, accepts, input)
  {
    delivered := [];
    var pos := 0;
    while true
      invariant 0 <= pos <= |input|
      invariant Read(limit, accepts, input) ==
                var rest := Read(limit, accepts, input[pos..]); Reading(delivered + rest.delivered, rest.end)
      decreases |input| - pos
    {
      if |input| - pos < HEADER_SIZE {
        return delivered, NeedMore;
      }
      var header := ParseHeader(input[pos..][..HEADER_SIZE]);
      if header.size < HEADER_SIZE {
        return delivered, TooSmall;
      }
      if header.size > limit {
        return delivered, TooBig;
      }
      if |input| - pos < header.size {
        return delivered, NeedMore;
      }
      var m := Message(header.kind, input[pos..][HEADER_SIZE..header.size]);
      delivered := delivered + [m];
      if !accepts(m) {
        return delivered, Rejected;
      }
      assert input[pos..][header.size..] == input[pos + header.size..];
      pos := pos + header.size;
    }
  }

  lemma ReadFront(limit: nat, accepts: Message -> bool, f: Frame, rest: seq<byte>)
    requires IsFrame(f) && |f| <= limit
    ensures Read(limit, accepts, f + rest) ==
            if !accepts(FrameMessage(f)) then Reading([FrameMessage(f)], Rejected)
            else var r := Read(limit, accepts, rest); Reading([FrameMessage(f)] + r.delivered, r.end)
  {
    var input := f + rest;
    assert input[..HEADER_SIZE] == f[..HEADER_SIZE];
    assert input[HEADER_SIZE..|f|] == f[HEADER_SIZE..];
    assert input[|f|..] == rest;
  }

  /** A strict prefix of a frame delivers nothing and raises nothing. */
  lemma ReadPartial(limit: nat, accepts: Message -> bool, f: Frame, k: nat)
    requires IsFrame(f) && |f| <= limit && k < |f|
    ensures Read(limit, accepts, f[..k]) == Reading([], NeedMore)
  {
    if k >= HEADER_SIZE {
      assert f[..k][..HEADER_SIZE] == f[..HEADER_SIZE];
    }
  }

  /** Exactly the frames that have arrived whole, up to the first one the handler refuses. */
  ghost predicate DeliversPrefix(accepts: Message -> bool, frames: seq<Frame>, k: nat, r: Reading)
    requires AllFrames(frames)
  {
    var n := |r.delivered|;
    && n <= |frames|
    && r.delivered == FrameMessages(frames[..n])
    && TotalLength(frames[..n]) <= k
    && (forall i | 0 <= i < n - 1 :: accepts(r.delivered[i]))
    && (r.end == Rejected ==> n > 0 && !accepts(r.delivered[n - 1]))
    && (r.end != Rejected ==>
          && r.end == NeedMore
          && (forall m <- r.delivered :: accepts(m))
          && (n < |frames| ==> k < TotalLength(frames[..n + 1])))
  }

  lemma ReadFrameThen(limit: nat, accepts: Message -> bool, f: Frame, rest: seq<Frame>, k: nat)
    requires IsFrame(f) && |f| <= limit && AllFrames(rest) && k <= TotalLength(rest)
    requires DeliversPrefix(accepts, rest, k, Read(limit, accepts, Flatten(rest)[..k]))
    ensures DeliversPrefix(accepts, [f] + rest, |f| + k, Read(limit, accepts, f + Flatten(rest)[..k]))
  {
    ReadFront(limit, accepts, f, Flatten(rest)[..k]);
    if accepts(FrameMessage(f)) {
      ConsDelivers(accepts, f, rest, k, Read(limit, accepts, Flatten(rest)[..k]));
    } else {
      assert ([f] + rest)[..1] == [f];
      FlattenOne(f);
    }
  }

  lemma ReadShort(limit: nat, accepts: Message -> bool, frames: seq<Frame>, k: nat)
    requires AllFrames(frames) && AllFit(frames, limit) && frames != [] && k < |frames[0]|
    ensures DeliversPrefix(accepts, frames, k, Read(limit, accepts, Flatten(frames)[..k]))
  {
    assert Flatten(frames)[..k] == frames[0][..k];
    ReadPartial(limit, accepts, frames[0], k);
    assert frames[..1] == [frames[0]] && frames[..0] == [];
    FlattenOne(frames[0]);
  }

  lemma ReadNothing(limit: nat, accepts: Message -> bool)
    ensures DeliversPrefix(accepts, [], 0, Read(limit, accepts, []))
  {}

  lemma FlattenTake(f: Frame, rest: seq<Frame>, k: nat)
    requires k <= TotalLength(rest)
    ensures Flatten([f] + rest)[..|f| + k] == f + Flatten(rest)[..k]
    ensures TotalLength([f] + rest) == |f| + TotalLength(rest)
  {
    assert ([f] + rest)[1..] == rest;
  }

  lemma {:induction false} ReadPrefix(limit: nat, accepts: Message -> bool, frames: seq<Frame>, k: nat)
    requires AllFrames(frames) && AllFit(frames, limit)
    requires k <= TotalLength(frames)
    ensures DeliversPrefix(accepts, frames, k, Read(limit, accepts, Flatten(frames)[..k]))
  {
    hide Read, DeliversPrefix;
    if frames == [] {
      assert Flatten(frames)[..k] == [];
      ReadNothing(limit, accepts);
    } else {
      var f, rest := frames[0], frames[1..];
      assert frames == [f] + rest;
      if k < |f| {
        ReadShort(limit, accepts, frames, k);
      } else {
        FlattenTake(f, rest, 0);
        hide Flatten, IsFrame;
        ReadPrefix(limit, accepts, rest, k - |f|);
        FlattenTake(f, rest, k - |f|);
        ReadFrameThen(limit, accepts, f, rest, k - |f|);
      }
    }
  }

  lemma ConsDelivers(accepts: Message -> bool, f: Frame, rest: seq<Frame>, k: nat, r: Reading)
    requires IsFrame(f) && AllFrames(rest)
    requires accepts(FrameMessage(f)) && DeliversPrefix(accepts, rest, k, r)
    ensures DeliversPrefix(accepts, [f] + rest, |f| + k, Reading([FrameMessage(f)] + r.delivered, r.end))
  {
    var frames, n := [f] + rest, |r.delivered|;
    assert frames[..n + 1] == [f] + rest[..n];
    FlattenAppend([f], rest[..n]);
    FlattenOne(f);
    if n < |rest| {
      assert frames[..n + 2] == [f] + rest[..n + 1];
      FlattenAppend([f], rest[..n + 1]);
    }
  }

  lemma {:induction false} FlattenPrefix(xs: seq<Frame>, ys: seq<Frame>, k: nat)
    requires ys != [] && k <= |ys[0]|
    ensures Flatten(xs) + ys[0][..k] <= Flatten(xs + ys)
  {
    FlattenAppend(xs, ys);
    assert ys == [ys[0]] + ys[1..];
  }

  lemma WireIsPrefix(L: Limits, s: State)
    requires HistoryOk(L, s) && WireOk(s)
    ensures s.past.wire <= Flatten(s.past.accepted)
  {
    if s.queue != [] {
      FlattenPrefix(s.past.written, s.queue, s.past.frontSent);
    } else {
      assert s.past.written + [] == s.past.written;
    }
  }

  /**
   * End to end: whatever the schedule of sends, writes and failures, the peer that has received any `k` of the
   * bytes sent has been handed exactly the accepted messages that fit in them, in order, and no size error.
   */
  lemma Delivery(L: Limits, es: seq<Event>, k: nat, limit: nat, accepts: Message -> bool)
    requires L.maxPacket <= limit && k <= |Run(L, FRESH, es).past.wire|
    ensures var s := Run(L, FRESH, es);
            && AllFrames(s.past.accepted)
            && DeliversPrefix(accepts, s.past.accepted, k, Read(limit, accepts, s.past.wire[..k]))
  {
    FreshInv(L);
    hide Run, DeliversPrefix, Read, WriterOk, QueueOk, LossyOk;
    RunInv(L, FRESH, es);
    var s := Run(L, FRESH, es);
    WireIsPrefix(L, s);
    hide WireOk;
    assert s.past.wire[..k] == Flatten(s.past.accepted)[..k];
    ReadPrefix(limit, accepts, s.past.accepted, k);
  }

  /** A receiver reads a whole run of frames without error exactly when its own limit admits each of them. */
  lemma {:induction false} ReceiverLimit(limit: nat, accepts: Message -> bool, frames: seq<Frame>)
    requires AllFrames(frames) && forall m :: accepts(m)
    ensures Read(limit, accepts, Flatten(frames)).end == NeedMore <==> AllFit(frames, limit)
  {
    if frames == [] {
    } else {
      var f, rest := frames[0], frames[1..];
      if |f| <= limit {
        ReadFront(limit, accepts, f, Flatten(rest));
        ReceiverLimit(limit, accepts, rest);
        assert frames == [f] + rest;
      } else {
        assert IsFrame(f) && Flatten(frames) == f + Flatten(rest);
        assert Flatten(frames)[..HEADER_SIZE] == f[..HEADER_SIZE];
      }
    }
  }

  /** After frames that all pass, a header whose size is below the minimum or above the limit ends the reading, and says which. */
  lemma {:induction false} BadSizeEndsReading(limit: nat, accepts: Message -> bool, frames: seq<Frame>, tail: seq<byte>)
    requires AllFrames(frames) && AllFit(frames, limit) && forall f <- frames :: IsFrame(f) && accepts(FrameMessage(f))
    requires |tail| >= HEADER_SIZE && limit >= HEADER_SIZE
    ensures var size: nat := tail[0] as nat + 256 * tail[1] as nat;
            var r := Read(limit, accepts, Flatten(frames) + tail);
            && (size < HEADER_SIZE ==> r == Reading(FrameMessages(frames), TooSmall))
            && (size > limit ==> r == Reading(FrameMessages(frames), TooBig))
    decreases |frames|
  {
    hide Read;
    if frames == [] {
      assert Flatten(frames) + tail == tail && FrameMessages(frames) == [];
      BadSizeReads(limit, accepts, tail);
    } else {
      var f, rest := frames[0], frames[1..];
      assert f in frames;
      assert Flatten(frames) + tail == f + (Flatten(rest) + tail);
      ReadFront(limit, accepts, f, Flatten(rest) + tail);
      BadSizeEndsReading(limit, accepts, rest, tail);
      assert FrameMessages(frames) == [FrameMessage(f)] + FrameMessages(rest);
    }
  }

  lemma BadSizeReads(limit: nat, accepts: Message -> bool, tail: seq<byte>)
    requires |tail| >= HEADER_SIZE && limit >= HEADER_SIZE
    ensures var size: nat := tail[0] as nat + 256 * tail[1] as nat;
            && (size < HEADER_SIZE ==> Read(limit, accepts, tail) == Reading([], TooSmall))
            && (size > limit ==> Read(limit, accepts, tail) == Reading([], TooBig))
  {
    assert ParseHeader(tail[..HEADER_SIZE]).size == tail[0] as nat + 256 * tail[1] as nat;
  }

  // ---- the session object ----

  class TcpSession {
    const limits: Limits
    var sendQueue: seq<Frame>
    var sendQueueBytes: int
    var sendQueueMessagesAtomic: int
    var sendQueueBytesAtomic: int
    var sendDropCount: nat
    var sendDropBytes: nat
    var appTxBytes: nat
    var socketOpen: bool
    var writers: seq<Writer>
    ghost var past: Past

    ghost function View(): State
      reads this
    {
      State(sendQueue, sendQueueBytes, sendQueueMessagesAtomic, sendQueueBytesAtomic, writers, socketOpen,
            sendDropCount, sendDropBytes, appTxBytes, past)
    }

    constructor (limits: Limits)
      ensures this.limits == limits && View() == FRESH
    {
      this.limits := limits;
      sendQueue, sendQueueBytes, sendQueueMessagesAtomic, sendQueueBytesAtomic := [], 0, 0, 0;
      sendDropCount, sendDropBytes, appTxBytes := 0, 0, 0;
      socketOpen, writers := true, [];
      past := FRESH.past;
    }

    method PushMessage(m: Frame)
      modifies this
      ensures View() == Push(old(View()), m)
    {
      var writeInProgress := sendQueue != [];
      sendQueueBytes := sendQueueBytes + |m|;
      sendQueue := sendQueue + [m];
      sendQueueMessagesAtomic := |sendQueue|;
      sendQueueBytesAtomic := sendQueueBytes;
      if !writeInProgress {
        writers := writers + [Spawned];
      }
      past := past.(accepted := past.accepted + [m]);
    }

    /** enqueue_send_close_ and enqueue_send_drop_, run on the strand for one async_send or async_send_lossy. */
    method Enqueue(header: Header, body: Option<seq<byte>>, lossy: bool)
      requires body.Some? ==> header.size <= HEADER_SIZE + |body.value|
      modifies this
      ensures View() == Step(limits, old(View()), AsyncSend(header, body, lossy))
    {
      var built := BuildFrame(header, body, limits.maxPacket);
      if built.None? {
        return;
      }
      var m := built.value;
      if lossy {
        past := past.(lossyOffered := past.lossyOffered + [m]);
      }
      if |sendQueue| + 1 > limits.maxMessages || sendQueueBytes + |m| > limits.maxBytes {
        if lossy {
          sendDropCount := sendDropCount + 1;
          sendDropBytes := sendDropBytes + |m|;
        } else {
          socketOpen := false;
        }
        return;
      }
      if lossy {
        past := past.(lossyAccepted := past.lossyAccepted + [m]);
      }
      PushMessage(m);
    }

    /** The stretch of write_loop between a completed async_write and the next suspension, or the loop's end. */
    method AfterWrite(i: nat)
      requires i < |writers| && sendQueue != []
      modifies this
      ensures View() == LoopTop(PopFront(old(View())), i)
    {
      PopMessage();
      ContinueLoop(i);
    }

    method PopMessage()
      requires sendQueue != []
      modifies this
      ensures View() == PopFront(old(View()))
    {
      var m := sendQueue[0];
      appTxBytes := appTxBytes + |m|;
      sendQueueBytes := sendQueueBytes - |m|;
      sendQueue := sendQueue[1..];
      sendQueueMessagesAtomic := |sendQueue|;
      sendQueueBytesAtomic := sendQueueBytes;
      past := past.(written := past.written + [m]);
    }

    method ContinueLoop(i: nat)
      requires i < |writers|
      modifies this`writers, this`past
      ensures View() == LoopTop(old(View()), i)
    {
      past := past.(frontSent := 0);
      if sendQueue == [] {
        writers := writers[..i] + writers[i + 1..];
      } else {
        writers := writers[i := Writing];
      }
    }

    /** The catch blocks of write_loop. */
    method WriteException(i: nat)
      requires WriterIs(View(), i, Writing)
      modifies this
      ensures View() == Step(limits, old(View()), WriteFails(i))
    {
      socketOpen := false;
      writers := writers[..i] + writers[i + 1..];
      past := past.(failed := true);
    }
  }
}
