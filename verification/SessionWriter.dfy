/**
  The outbound half of a Receive Session (internal/session/writer.go and the deliver
  goroutine of internal/session/receive.go) as a step system: one queue, several
  producers, one writer that owns the cipher state and the connection.
 */
module SessionWriter {
  import opened Base
  import opened FrameCodec
  import opened Transport

  const QUEUE_CAPACITY := 16

  /** An AEAD under one key: sealing adds a tag, opening under the same nonce inverts it. */
  datatype Cipher = Cipher(seal: (nat, Bytes) -> Bytes, open: (nat, Bytes) -> Option<Bytes>)

  ghost predicate Sound(c: Cipher) {
    forall n: nat, p: Bytes ::
      |c.seal(n, p)| == |p| + TAG_BYTES && c.open(n, c.seal(n, p)) == Some(p)
  }

  /**
    - queue, nonce, stream, alive: the writer's channel, cipher state and connection
    - hand: the blob the deliver goroutine has taken and not yet enqueued
    - stopped, exited: the session's stop channel, and the deliver goroutine's return
    - taken, written: history - blobs taken, frames written whole
    - torn, cut: the frame whose encryption or write failed, and the bytes of it that went out
   */
  datatype Out = Out(
    queue: seq<Bytes>, nonce: nat, stream: Bytes, alive: bool,
    hand: seq<Blob>, stopped: bool, exited: bool,
    taken: seq<Blob>, written: seq<Bytes>, torn: seq<Bytes>, cut: Bytes)

  const NewOut := Out([], 0, [], true, [], false, false, [], [], [], [])

  datatype WriterEvent =
    | Enqueue            // send: the deliver goroutine's frame gets a queue slot
    | Echo               // trySend of a Heartbeat echo
    | Complain           // trySend of a malformed-frame Error
    | Write              // the writer takes, encrypts and writes one frame
    | WriteFails(k: nat) // the same, but only k bytes reach the connection
    | EncryptFails       // the writer takes a frame it cannot encrypt, and returns
    | Stop               // the session's stop channel closes
    | Halt               // the writer takes its stop branch
    | GiveUp             // send takes its stop branch

  function DeliverFrame(b: Blob): Bytes {
    FrameBytes(DELIVER, DeliverBody(ToU64(b.id), b.envelope))
  }

  function Sealed(c: Cipher, o: Out): Bytes
    requires o.queue != []
  {
    WriteMsg(c.seal(o.nonce, o.queue[0]))
  }

  function TrySend(o: Out, frame: Bytes): Out {
    if |o.queue| < QUEUE_CAPACITY then o.(queue := o.queue + [frame]) else o
  }

  predicate CanTake(o: Out) {
    o.hand == [] && !o.exited
  }

  function Take(o: Out, b: Blob): Out
    requires CanTake(o)
  {
    o.(hand := [b], taken := o.taken + [b])
  }

  function WriteOne(c: Cipher, o: Out): Out
    requires o.queue != []
  {
    o.(queue := o.queue[1..], nonce := o.nonce + 1, stream := o.stream + Sealed(c, o),
       written := o.written + [o.queue[0]])
  }

  function CutWrite(c: Cipher, o: Out, k: nat): Out
    requires o.queue != [] && k < |Sealed(c, o)|
  {
    o.(queue := o.queue[1..], nonce := o.nonce + 1, stream := o.stream + Sealed(c, o)[..k],
       alive := false, torn := [o.queue[0]], cut := Sealed(c, o)[..k])
  }

  function DropOne(o: Out): Out
    requires o.queue != []
  {
    o.(queue := o.queue[1..], alive := false, torn := [o.queue[0]])
  }

  /** One step of the session's output side; an event that is not enabled changes nothing. */
  function Step(c: Cipher, o: Out, e: WriterEvent): Out {
    match e
    case Enqueue =>
      if o.hand != [] && !o.exited && |o.queue| < QUEUE_CAPACITY
      then o.(queue := o.queue + [DeliverFrame(o.hand[0])], hand := []) else o
    case Echo => TrySend(o, FrameBytes(HEARTBEAT, []))
    case Complain => TrySend(o, FrameBytes(ERROR, [REASON_MALFORMED]))
    case Write => if o.alive && o.queue != [] then WriteOne(c, o) else o
    case WriteFails(k) =>
      if o.alive && o.queue != [] && k < |Sealed(c, o)| then CutWrite(c, o, k) else o
    case EncryptFails => if o.alive && o.queue != [] then DropOne(o) else o
    case Stop => o.(stopped := true)
    case Halt => if o.stopped then o.(alive := false) else o
    case GiveUp => if o.stopped then o.(exited := true) else o
  }

  // ---------------------------------------------------------------- what a Device decodes

  function ReceivedOne(frame: Bytes): seq<Blob> {
    match Parse(frame)
    case Parsed(t, body) =>
      if t == DELIVER && DecodeDeliver(body).Some?
      then [Blob(ToI64(DecodeDeliver(body).value.0), DecodeDeliver(body).value.1)] else []
    case _ => []
  }

  /** The blobs in a sequence of plaintext frames. */
  function Received(frames: seq<Bytes>): seq<Blob> {
    Collect(ReceivedOne, frames)
  }

  /** Decrypting the i-th message under nonce i, up to the first failure. */
  function OpenFrom(c: Cipher, msgs: seq<Bytes>, n: nat): seq<Bytes> {
    if msgs == [] || c.open(n, msgs[0]).None? then []
    else [c.open(n, msgs[0]).value] + OpenFrom(c, msgs[1..], n + 1)
  }

  /** Everything the Device at the other end of the connection makes of its bytes. */
  function DeviceBlobs(c: Cipher, stream: Bytes): seq<Blob> {
    Received(OpenFrom(c, ReadAll(stream), 0))
  }

  predicate Deliverable(b: Blob) {
    IsI64(b.id) && |b.envelope| <= PROTOCOL_MAX_ENVELOPE
  }

  lemma ReceivedDeliver(b: Blob)
    requires Deliverable(b)
    ensures ReceivedOne(DeliverFrame(b)) == [b]
    ensures |DeliverFrame(b)| + TAG_BYTES <= MAX_NOISE
  {
    var body := DeliverBody(ToU64(b.id), b.envelope);
    ParseOfFrame(DELIVER, body, []);
    assert FrameBytes(DELIVER, body) + [] == FrameBytes(DELIVER, body);
    BlobIdRoundTrip(b.id, b.envelope, []);
  }

  /** The frame that carries a blob is of type 2; its body is the id, eight bytes big-endian, and
      the envelope. */
  lemma DeliverFrameIs(b: Blob)
    requires Deliverable(b)
    ensures Parse(DeliverFrame(b)) == Parsed(2, U64(ToU64(b.id)) + b.envelope)
  {
    var body := DeliverBody(ToU64(b.id), b.envelope);
    ParseOfFrame(DELIVER, body, []);
    assert FrameBytes(DELIVER, body) + [] == FrameBytes(DELIVER, body);
  }

  lemma ReceivedOther(t: Byte, body: Bytes)
    requires KnownType(t) && t != DELIVER && |body| <= 1
    ensures ReceivedOne(FrameBytes(t, body)) == []
  {
    ParseOfFrame(t, body, []);
    assert FrameBytes(t, body) + [] == FrameBytes(t, body);
  }

  // ---------------------------------------------------------------- the invariant

  predicate FrameFits(f: Bytes) {
    |f| + TAG_BYTES <= MAX_NOISE
  }

  function SealAll(c: Cipher, frames: seq<Bytes>): (r: seq<Bytes>)
    ensures |r| == |frames|
    ensures forall i :: 0 <= i < |r| ==> r[i] == c.seal(i, frames[i])
  {
    seq(|frames|, i requires 0 <= i < |frames| => c.seal(i, frames[i]))
  }

  /** The n-th complete message on the wire is the n-th dequeued frame under nonce n, plus
      at most one cut-off message. */
  ghost predicate StreamOk(c: Cipher, o: Out) {
    && o.stream == WriteAll(SealAll(c, o.written)) + o.cut
    && ReadMsg(o.cut).None?
    && (o.alive ==> o.cut == [] && o.nonce == |o.written|)
  }

  /** The frames that have left the producers, in order. */
  function Line(o: Out): seq<Bytes> {
    o.written + o.torn + o.queue
  }

  /** No Deliver frame is lost, repeated or reordered between the channel and the wire. */
  ghost predicate QueueOk(o: Out) {
    && |o.queue| <= QUEUE_CAPACITY
    && |o.hand| <= 1
    && (forall f :: f in Line(o) ==> FrameFits(f))
    && (forall b :: b in o.taken ==> Deliverable(b))
    && (o.alive ==> o.torn == [])
    && Received(Line(o)) + o.hand == o.taken
  }

  ghost predicate Ok(c: Cipher, o: Out) {
    StreamOk(c, o) && QueueOk(o)
  }

  lemma NewOutOk(c: Cipher)
    ensures Ok(c, NewOut)
  {
  }

  lemma TakeOk(c: Cipher, o: Out, b: Blob)
    requires Ok(c, o) && CanTake(o) && Deliverable(b)
    ensures Ok(c, Take(o, b))
  {
  }

  /** A frame joins the line behind the others. */
  lemma JoinLine(o: Out, p: Out, f: Bytes)
    requires p.written == o.written && p.torn == o.torn && p.queue == o.queue + [f]
    ensures Line(p) == Line(o) + [f]
    ensures Received(Line(p)) == Received(Line(o)) + ReceivedOne(f)
  {
    assert Line(p) == Line(o) + [f];
    CollectSnoc(ReceivedOne, Line(o), f);
  }

  lemma EnqueueOk(c: Cipher, o: Out)
    requires Ok(c, o)
    ensures Ok(c, Step(c, o, Enqueue))
  {
    var p := Step(c, o, Enqueue);
    if p != o {
      var b := o.hand[0];
      assert o.hand == [b];
      assert b in o.taken by { assert o.taken[|o.taken| - 1] == b; }
      ReceivedDeliver(b);
      JoinLine(o, p, DeliverFrame(b));
    }
  }

  /** A reply is dropped when the queue is full and joins it otherwise; either way the queue
      keeps its bound and no Deliver frame is lost, repeated or moved. */
  lemma TrySendOk(c: Cipher, o: Out, t: Byte, body: Bytes)
    requires Ok(c, o) && KnownType(t) && t != DELIVER && |body| <= 1
    ensures var p := TrySend(o, FrameBytes(t, body));
            && Ok(c, p) && Received(Line(p)) == Received(Line(o))
            && (p == o <==> |o.queue| == QUEUE_CAPACITY)
  {
    var p := TrySend(o, FrameBytes(t, body));
    if |o.queue| < QUEUE_CAPACITY {
      ReceivedOther(t, body);
      JoinLine(o, p, FrameBytes(t, body));
      assert Received(Line(o)) + [] == Received(Line(o));
      assert |p.queue| != |o.queue|;
    }
  }

  /** The reply is the queue's last frame, and this is what its receiver parses. */
  ghost predicate Replied(o: Out, p: Out, t: int, body: Bytes) {
    && |p.queue| == |o.queue| + 1 && p.queue[..|o.queue|] == o.queue
    && 0 <= t < 256 && Parse(p.queue[|o.queue|]) == Parsed(t, body)
    && p == o.(queue := p.queue)
  }

  /** With room in the queue an echo is a Heartbeat (type 3) without a body, and a complaint an
      Error (type 5) whose body is the one byte 2; without room neither is sent. */
  lemma RepliesExactly(c: Cipher, o: Out)
    ensures |o.queue| < 16 ==> Replied(o, Step(c, o, Echo), 3, []) && Replied(o, Step(c, o, Complain), 5, [2])
    ensures |o.queue| >= 16 ==> Step(c, o, Echo) == o && Step(c, o, Complain) == o
  {
    ParseOfFrame(HEARTBEAT, [], []);
    ParseOfFrame(ERROR, [REASON_MALFORMED], []);
    assert FrameBytes(HEARTBEAT, []) + [] == FrameBytes(HEARTBEAT, []);
    assert FrameBytes(ERROR, [REASON_MALFORMED]) + [] == FrameBytes(ERROR, [REASON_MALFORMED]);
  }

  lemma WriteOk(c: Cipher, o: Out)
    requires Ok(c, o) && o.alive && o.queue != []
    ensures Ok(c, WriteOne(c, o)) && Line(WriteOne(c, o)) == Line(o)
  {
    var p := WriteOne(c, o);
    assert Line(p) == Line(o);
    var msgs, m := SealAll(c, o.written), c.seal(o.nonce, o.queue[0]);
    assert SealAll(c, p.written) == msgs + [m];
    WriteAllSnoc(msgs, m);
  }

  lemma CutOk(c: Cipher, o: Out, k: nat)
    requires Sound(c) && Ok(c, o) && o.alive && o.queue != [] && k < |Sealed(c, o)|
    ensures Ok(c, CutWrite(c, o, k)) && Line(CutWrite(c, o, k)) == Line(o)
  {
    var p := CutWrite(c, o, k);
    assert o.queue[0] in Line(o);
    assert Line(p) == Line(o);
    ReadOfCut(c.seal(o.nonce, o.queue[0]), k);
  }

  lemma DropOk(c: Cipher, o: Out)
    requires Ok(c, o) && o.alive && o.queue != []
    ensures Ok(c, DropOne(o)) && Line(DropOne(o)) == Line(o)
  {
    HeadTorn(o.written, o.queue);
  }

  /** The frame torn off the queue's head stays in its place in the line. */
  lemma HeadTorn(written: seq<Bytes>, queue: seq<Bytes>)
    requires queue != []
    ensures written + [queue[0]] + queue[1..] == written + [] + queue
  {
  }

  /** Every step of every producer and of the writer keeps the line and the stream. */
  lemma StepOk(c: Cipher, o: Out, e: WriterEvent)
    requires Sound(c) && Ok(c, o)
    ensures Ok(c, Step(c, o, e)) && Step(c, o, e).taken == o.taken
  {
    match e
    case Enqueue => EnqueueOk(c, o);
    case Echo => TrySendOk(c, o, HEARTBEAT, []);
    case Complain => TrySendOk(c, o, ERROR, [REASON_MALFORMED]);
    case Write => if o.alive && o.queue != [] { WriteOk(c, o); }
    case WriteFails(k) => if o.alive && o.queue != [] && k < |Sealed(c, o)| { CutOk(c, o, k); }
    case EncryptFails => if o.alive && o.queue != [] { DropOk(c, o); }
    case Stop =>
    case Halt =>
    case GiveUp =>
  }

  // ---------------------------------------------------------------- what reaches the Device

  lemma {:induction false} OpenSealed(c: Cipher, frames: seq<Bytes>, n: nat)
    requires Sound(c) && n <= |frames|
    ensures OpenFrom(c, SealAll(c, frames)[n..], n) == frames[n..]
    decreases |frames| - n
  {
    if n < |frames| {
      var msgs := SealAll(c, frames)[n..];
      OpenSealed(c, frames, n + 1);
      assert msgs[1..] == SealAll(c, frames)[n + 1..];
      assert frames[n..] == [frames[n]] + frames[n + 1..];
    }
  }

  /** Reading the connection's bytes and opening message i under nonce i gives back exactly
      the frames written whole, in the order they were dequeued. */
  lemma WireIsWritten(c: Cipher, o: Out)
    requires Sound(c) && Ok(c, o)
    ensures ReadAll(o.stream) == SealAll(c, o.written)
    ensures OpenFrom(c, ReadAll(o.stream), 0) == o.written
  {
    var msgs := SealAll(c, o.written);
    forall m | m in msgs ensures |m| <= MAX_NOISE {
      var i :| 0 <= i < |msgs| && m == msgs[i];
      assert o.written[i] in Line(o);
    }
    ReadAllOfWriteAll(msgs, o.cut);
    OpenSealed(c, o.written, 0);
    assert msgs[0..] == msgs && o.written[0..] == o.written;
  }

  lemma {:induction false} OpenOfPrefix(c: Cipher, some: seq<Bytes>, all: seq<Bytes>, n: nat)
    requires IsPrefix(some, all)
    ensures IsPrefix(OpenFrom(c, some, n), OpenFrom(c, all, n))
  {
    if some != [] && c.open(n, some[0]).Some? {
      OpenOfPrefix(c, some[1..], all[1..], n + 1);
    }
  }

  lemma ReceivedOfPrefix(some: seq<Bytes>, all: seq<Bytes>)
    requires IsPrefix(some, all)
    ensures IsPrefix(Received(some), Received(all))
  {
    CollectConcat(ReceivedOne, some, all[|some|..]);
    assert some + all[|some|..] == all;
  }

  /** A Device that loses the end of the connection's bytes decodes a prefix of the blobs. */
  lemma DeviceBlobsOfPrefix(c: Cipher, stream: Bytes, n: nat)
    requires n <= |stream|
    ensures IsPrefix(DeviceBlobs(c, stream[..n]), DeviceBlobs(c, stream))
  {
    ReadAllOfPrefix(stream, n);
    OpenOfPrefix(c, ReadAll(stream[..n]), ReadAll(stream), 0);
    ReceivedOfPrefix(OpenFrom(c, ReadAll(stream[..n]), 0), OpenFrom(c, ReadAll(stream), 0));
  }

  lemma WrittenIsPrefix(o: Out)
    requires Received(Line(o)) + o.hand == o.taken
    ensures IsPrefix(Received(o.written), o.taken)
  {
    assert Line(o) == o.written + (o.torn + o.queue);
    FirstIsPrefix(o.written, o.torn + o.queue, o.hand, o.taken);
  }

  lemma FirstIsPrefix(frames: seq<Bytes>, rest: seq<Bytes>, hand: seq<Blob>, taken: seq<Blob>)
    requires Received(frames + rest) + hand == taken
    ensures IsPrefix(Received(frames), taken)
  {
    CollectConcat(ReceivedOne, frames, rest);
    AppendsToPrefix(Received(frames), Received(rest), hand, taken);
  }

  lemma AppendsToPrefix<T>(a: seq<T>, b: seq<T>, c: seq<T>, whole: seq<T>)
    requires whole == (a + b) + c
    ensures IsPrefix(a, whole)
  {
  }

  /** The blobs the Device decodes from the wire are a prefix of those taken from the
      delivery channel: none missing, none repeated, none out of order. */
  lemma DeviceSeesPrefix(c: Cipher, o: Out)
    requires Sound(c) && Ok(c, o)
    ensures IsPrefix(DeviceBlobs(c, o.stream), o.taken)
  {
    WireIsWritten(c, o);
    WrittenIsPrefix(o);
  }

  // ---------------------------------------------------------------- the writer itself

  /** The branches of the writer's select, and how each of its turns can end. */
  predicate LoopEvent(e: WriterEvent) {
    e.Write? || e.WriteFails? || e.EncryptFails? || e.Halt?
  }

  predicate LoopEvents(es: seq<WriterEvent>) {
    forall e :: e in es ==> LoopEvent(e)
  }

  function RunAll(c: Cipher, o: Out, es: seq<WriterEvent>): Out {
    if es == [] then o else Step(c, RunAll(c, o, es[..|es| - 1]), es[|es| - 1])
  }

  /** Encrypting or writing a frame fails. */
  predicate Breaks(e: WriterEvent) {
    e.WriteFails? || e.EncryptFails?
  }

  predicate EverBreaks(es: seq<WriterEvent>) {
    exists e :: e in es && Breaks(e)
  }

  lemma EverSnoc(es: seq<WriterEvent>, e: WriterEvent)
    ensures Stop in es + [e] <==> Stop in es || e == Stop
    ensures EverBreaks(es + [e]) <==> EverBreaks(es) || Breaks(e)
  {
    assert e in es + [e];
    if EverBreaks(es) {
      var x :| x in es && Breaks(x);
      assert x in es + [e];
    }
  }

  lemma EndsStep(c: Cipher, o: Out, e: WriterEvent)
    ensures var p := Step(c, o, e);
            && (p.stopped <==> o.stopped || e == Stop) && (p.exited ==> o.exited || o.stopped)
            && (!p.alive ==> !o.alive || o.stopped || Breaks(e))
  {
  }

  /** Over any steps of the output side from its start: the stop channel is closed exactly if it was
      closed, the deliver goroutine has returned only if it was, and the writer only if it was or a
      frame could not be encrypted or written. */
  lemma {:induction false} EndsOnlyIfStopped(c: Cipher, es: seq<WriterEvent>)
    ensures var o := RunAll(c, NewOut, es);
            && (o.stopped <==> Stop in es) && (o.exited ==> Stop in es)
            && (!o.alive ==> Stop in es || EverBreaks(es))
  {
    if es != [] {
      var n := |es| - 1;
      EndsOnlyIfStopped(c, es[..n]);
      EndsStep(c, RunAll(c, NewOut, es[..n]), es[n]);
      EverSnoc(es[..n], es[n]);
      assert es == es[..n] + [es[n]];
    }
  }

  /** ... and once it is closed both may return. */
  lemma StopLetsReturn(c: Cipher, o: Out)
    ensures var p := Step(c, o, Stop);
            p.stopped && !Step(c, p, Halt).alive && Step(c, p, GiveUp).exited
  {
  }

  lemma RunAllNext(c: Cipher, o: Out, es: seq<WriterEvent>, i: nat)
    requires i < |es| && LoopEvents(es)
    ensures LoopEvent(es[i]) && RunAll(c, o, es[..i + 1]) == Step(c, RunAll(c, o, es[..i]), es[i])
  {
    assert es[..i + 1][..i] == es[..i];
    assert es[i] in es;
  }

  lemma LoopStepKeepsLine(c: Cipher, o: Out, e: WriterEvent)
    requires Sound(c) && Ok(c, o) && LoopEvent(e)
    ensures Line(Step(c, o, e)) == Line(o)
  {
    match e
    case Write => if o.alive && o.queue != [] { WriteOk(c, o); }
    case WriteFails(k) => if o.alive && o.queue != [] && k < |Sealed(c, o)| { CutOk(c, o, k); }
    case EncryptFails => if o.alive && o.queue != [] { DropOk(c, o); }
    case Halt =>
  }

  /** Whatever each turn of the writer's loop does, it takes frames off the queue's front and
      keeps the line: no frame changes its place on the way to the wire. */
  lemma {:induction false} LoopKeepsLine(c: Cipher, o: Out, es: seq<WriterEvent>)
    requires Sound(c) && Ok(c, o) && LoopEvents(es)
    ensures Ok(c, RunAll(c, o, es)) && Line(RunAll(c, o, es)) == Line(o)
    ensures RunAll(c, o, es).alive ==> RunAll(c, o, es).torn == []
  {
    if es != [] {
      LoopKeepsLine(c, o, es[..|es| - 1]);
      StepOk(c, RunAll(c, o, es[..|es| - 1]), es[|es| - 1]);
      LoopStepKeepsLine(c, RunAll(c, o, es[..|es| - 1]), es[|es| - 1]);
    }
  }

  /** A writer that has returned changes nothing any more. */
  lemma {:induction false} ReturnedStays(c: Cipher, o: Out, es: seq<WriterEvent>, n: nat)
    requires n <= |es| && LoopEvents(es)
    requires !RunAll(c, o, es[..n]).alive
    ensures RunAll(c, o, es) == RunAll(c, o, es[..n])
    decreases |es|
  {
    if n < |es| {
      var init := es[..|es| - 1];
      assert init[..n] == es[..n];
      assert forall e :: e in init ==> e in es;
      ReturnedStays(c, o, init, n);
      ReturnedStep(c, RunAll(c, o, init), es[|es| - 1]);
    } else {
      assert es[..n] == es;
    }
  }

  lemma ReturnedStep(c: Cipher, o: Out, e: WriterEvent)
    requires LoopEvent(e) && !o.alive
    ensures Step(c, o, e) == o
  {
  }

  datatype SendResult = Queued | Stopped | Waits

  /** sessionWriter: the queue, and in `Run` the writer goroutine's loop. */
  class Writer {
    const cipher: Cipher
    var out: Out

    constructor (c: Cipher)
      ensures cipher == c && out == NewOut
    {
      cipher, out := c, NewOut;
    }

    /** trySend: never blocks.  The frame is the queue's last if there was room, else nothing
        changes; the queue never exceeds its capacity. */
    method TrySendFrame(frame: Bytes)
      modifies this
      ensures out == TrySend(old(out), frame)
      ensures |old(out).queue| < QUEUE_CAPACITY ==> out.queue == old(out).queue + [frame]
      ensures |old(out).queue| <= QUEUE_CAPACITY ==> |out.queue| <= QUEUE_CAPACITY
      ensures old(out).queue <= out.queue
    {
      if |out.queue| < QUEUE_CAPACITY {
        out := out.(queue := out.queue + [frame]);
      }
    }

    /** send: a select between a queue slot for the Deliver frame in hand and the stop channel.
        When both are ready either may be taken; when neither is, send waits. */
    method Send(takeStop: bool) returns (r: SendResult)
      requires out.hand != [] && !out.exited
      modifies this
      ensures r.Waits? <==> |old(out).queue| >= QUEUE_CAPACITY && !old(out).stopped
      ensures r.Stopped? <==> old(out).stopped && (takeStop || |old(out).queue| >= QUEUE_CAPACITY)
      ensures out == if r.Queued? then Step(cipher, old(out), Enqueue)
                     else if r.Stopped? then Step(cipher, old(out), GiveUp) else old(out)
    {
      var room := |out.queue| < QUEUE_CAPACITY;
      if out.stopped && (takeStop || !room) {
        out := out.(exited := true);
        return Stopped;
      }
      if !room {
        return Waits;
      }
      out := out.(queue := out.queue + [DeliverFrame(out.hand[0])], hand := []);
      return Queued;
    }

    /** run: one turn after another, each as the select and the calls in it happen to end, until
        the writer returns. */
    method Run(turns: seq<WriterEvent>)
      requires LoopEvents(turns)
      modifies this
      ensures out == RunAll(cipher, old(out), turns)
    {
      var i := 0;
      while i < |turns| && out.alive
        invariant 0 <= i <= |turns|
        invariant out == RunAll(cipher, old(out), turns[..i])
      {
        RunAllNext(cipher, old(out), turns, i);
        Turn(turns[i]);
        i := i + 1;
      }
      assert turns[..|turns|] == turns;
      if i < |turns| {
        ReturnedStays(cipher, old(out), turns, i);
      }
    }

    method Turn(e: WriterEvent)
      requires LoopEvent(e) && out.alive
      modifies this
      ensures out == Step(cipher, old(out), e)
    {
      if e.Halt? {
        if out.stopped {
          out := out.(alive := false);
        }
        return;
      }
      if out.queue == [] {
        return;
      }
      if e.EncryptFails? {
        out := DropOne(out);
        return;
      }
      var msg := WriteMsg(cipher.seal(out.nonce, out.queue[0]));
      if e.WriteFails? {
        if e.k < |msg| {
          out := CutWrite(cipher, out, e.k);
        }
      } else {
        out := WriteOne(cipher, out);
      }
    }
  }
}
