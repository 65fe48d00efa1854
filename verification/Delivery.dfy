/**
  The delivery protocol as a step system: the router (internal/relay/router.go), the store,
  the notifier, the limits and the session layer (internal/session) running together.

  A state is changed by events, one atomic step each; an event that is not enabled changes
  nothing, so every finite sequence of events is a run.
 */
module Delivery {
  import opened Base
  import opened Inbox
  import opened FrameCodec
  import opened Router
  import W = SessionWriter
  import N = Notifier
  import L = Limits
  import C = SessionCap
  import F = FanOut

  const CHANNEL_CAPACITY := 256

  /** Where a session's delivery goroutine is. */
  datatype Pc =
    | Acquired                   // slot taken, not yet subscribed
    | FirstPeek                  // subscribed; the initial flush is still to come
    | Waiting                    // at the select
    | Woken                      // signal consumed; the peek is still to come
    | Sending(batch: seq<Blob>)  // inside deliverNew, with blobs still to send
    | Done                       // slot released, channel closed

  /** Where a session's subscription is: its channel has the session's own number. */
  datatype Stage = NotYet | Listening | Removed | Closed

  /** sent and behind are history.  behind records a wake-up that was lost, to a failed peek or
      to a fan-out that was overtaken, and that no later peek has made good. */
  datatype Session = Session(
    key: Key, pc: Pc, stage: Stage, lastID: int, signal: bool, cancelled: bool, behind: bool,
    channel: seq<Blob>, out: W.Out, sent: seq<Blob>)

  /** One Push frame on its way through OnPush; a fan-out reads the backing array `arr`. */
  datatype Progress =
    | Committed(row: Row)
    | Fanning(row: Row, arr: nat, scan: F.Scan)
    | Notified(row: Row)
    | Acked(row: Row)
    | Declined(reason: Byte)

  /** accepted is history: the body of the push that created each row. */
  datatype State = State(
    table: Table, buckets: L.Buckets, active: C.Active, lists: N.Lists,
    sessions: map<nat, Session>, pushes: map<nat, Progress>, accepted: map<int, Bytes>)

  const Init := State(Empty, map[], map[], N.NoLists, map[], map[], map[])

  // ---------------------------------------------------------------- one session's own steps

  datatype LocalEvent =
    | Peek(ok: bool)            // deliverNew's query
    | SendOne                   // deliverNew's channel send
    | Abandon                   // deliverNew's context branch
    | Wake                      // the select takes the signal
    | Signal                    // the notifier fills the slot
    | Cancel                    // the session's context ends
    | Take                      // the deliver goroutine takes from the channel
    | Output(e: W.WriterEvent)  // the writer side

  function DoPeek(t: Table, ss: Session, ok: bool): Session {
    if !ok then ss.(pc := Waiting, behind := true)
    else
      var batch := PeekAfter(t, ss.key, ss.lastID);
      ss.(pc := if batch == [] then Waiting else Sending(batch), behind := false)
  }

  function DoSend(ss: Session): Session
    requires ss.pc.Sending? && ss.pc.batch != []
  {
    var b, rest := ss.pc.batch[0], ss.pc.batch[1..];
    ss.(channel := ss.channel + [b], sent := ss.sent + [b], lastID := b.id,
        pc := if rest == [] then Waiting else Sending(rest))
  }

  function Local(c: W.Cipher, t: Table, ss: Session, e: LocalEvent): Session {
    match e
    case Peek(ok) => if ss.pc.FirstPeek? || ss.pc.Woken? then DoPeek(t, ss, ok) else ss
    case SendOne =>
      if ss.pc.Sending? && ss.pc.batch != [] && |ss.channel| < CHANNEL_CAPACITY then DoSend(ss) else ss
    case Abandon => if ss.pc.Sending? && ss.cancelled then ss.(pc := Waiting) else ss
    case Wake => if ss.pc.Waiting? && ss.signal then ss.(pc := Woken, signal := false) else ss
    case Signal => ss.(signal := true)
    case Cancel => ss.(cancelled := true)
    case Take =>
      if ss.channel != [] && W.CanTake(ss.out)
      then ss.(out := W.Take(ss.out, ss.channel[0]), channel := ss.channel[1..]) else ss
    case Output(w) => ss.(out := W.Step(c, ss.out, w))
  }

  function NewSession(k: Key): Session {
    Session(k, Acquired, NotYet, 0, false, false, false, [], W.NewOut, [])
  }

  // ---------------------------------------------------------------- the relay's steps

  datatype Event =
    | At(sid: nat, e: LocalEvent)
    | Connect(sid: nat, key: Key)
    | Subscribe(sid: nat, ok: bool, spare: nat)     // spare capacity, if the list's array grows
    | Unsubscribe(sid: nat)                         // the notifier's goroutine, once cancelled
    | CloseChannel(sid: nat)                        // the same, after it has released the lock
    | Teardown(sid: nat)                            // the delivery goroutine returns
    | Inbound(sid: nat, plain: Bytes, fault: bool)  // a decrypted frame on a Receive Session
    | PushFrame(pid: nat, plain: Bytes, clock: L.Clock, wall: int, fault: bool)
    | BeginNotify(pid: nat)                         // Notify takes the slice header
    | NotifyRead(pid: nat)                          // the range reads the next slot, or ends
    | NotifySend(pid: nat)                          // and sends to what it read
    | AckPush(pid: nat)
    | ReapNow(wall: int)
    | Crash

  /** A process restart: only what is committed survives. */
  function Restarted(s: State): State {
    Init.(table := s.table, accepted := s.accepted,
          pushes := map p | p in s.pushes && (s.pushes[p].Acked? || s.pushes[p].Declined?) :: s.pushes[p])
  }

  function AtStep(cfg: Config, s: State, sid: nat, e: LocalEvent): State {
    if sid in s.sessions
    then s.(sessions := s.sessions[sid := Local(cfg.cipher, s.table, s.sessions[sid], e)]) else s
  }

  function ConnectStep(cfg: Config, s: State, sid: nat, k: Key): State {
    var (ok, active) := C.Acquire(cfg.sessionMax, s.active, k);
    if sid !in s.sessions && ok
    then s.(active := active, sessions := s.sessions[sid := NewSession(k)]) else s
  }

  function Leave(cfg: Config, s: State, sid: nat): State
    requires sid in s.sessions
  {
    var ss := s.sessions[sid];
    s.(active := C.Release(cfg.sessionMax, s.active, ss.key), sessions := s.sessions[sid := ss.(pc := Done)])
  }

  // ---------------------------------------------------------------- what a fan-out still owes

  function SlotsAt(heap: seq<N.Array>, a: nat): seq<N.Chan> {
    if a < |heap| then heap[a].slots else []
  }

  /** The push has committed a row for k and still has sid's channel before it. */
  predicate PendsFor(heap: seq<N.Array>, p: Progress, sid: nat, k: Key) {
    || (p.Committed? && p.row.recipient == k)
    || (p.Fanning? && p.row.recipient == k && F.Ahead(SlotsAt(heap, p.arr), p.scan, sid))
  }

  predicate Pending(heap: seq<N.Array>, pushes: map<nat, Progress>, sid: nat, k: Key) {
    exists p :: p in pushes && PendsFor(heap, pushes[p], sid, k)
  }

  /** The new arrays leave nothing that would still signal the session. */
  predicate Overtaken(s: State, heap: seq<N.Array>, sid: nat)
    requires sid in s.sessions
  {
    var k := s.sessions[sid].key;
    Pending(s.lists.heap, s.pushes, sid, k) && !Pending(heap, s.pushes, sid, k)
  }

  /** The lists change under the fan-outs. */
  function WithLists(s: State, lists: N.Lists): State {
    s.(lists := lists,
       sessions := map sid | sid in s.sessions ::
                     s.sessions[sid].(behind := s.sessions[sid].behind || Overtaken(s, lists.heap, sid)))
  }

  function SubscribeStep(cfg: Config, s: State, sid: nat, ok: bool, spare: nat): State {
    if sid !in s.sessions || !s.sessions[sid].pc.Acquired? then s
    else if !ok then Leave(cfg, s, sid)
    else
      var ss := s.sessions[sid];
      WithLists(s.(sessions := s.sessions[sid := ss.(pc := FirstPeek, stage := Listening)]),
                N.Subscribed(s.lists, ss.key, sid, spare))
  }

  function UnsubscribeStep(s: State, sid: nat): State {
    if sid in s.sessions && s.sessions[sid].cancelled && s.sessions[sid].stage.Listening?
    then
      var ss := s.sessions[sid];
      WithLists(s.(sessions := s.sessions[sid := ss.(stage := Removed)]), N.Unsubscribed(s.lists, ss.key, sid))
    else s
  }

  function CloseStep(s: State, sid: nat): State {
    if sid in s.sessions && s.sessions[sid].stage.Removed?
    then s.(sessions := s.sessions[sid := s.sessions[sid].(stage := Closed)]) else s
  }

  function TeardownStep(cfg: Config, s: State, sid: nat): State {
    if sid in s.sessions && s.sessions[sid].pc.Waiting? && s.sessions[sid].cancelled
    then Leave(cfg, s, sid) else s
  }

  /** A trySend from the read loop. */
  function Say(cfg: Config, s: State, sid: nat, w: W.WriterEvent): State
    requires sid in s.sessions
  {
    s.(sessions := s.sessions[sid := s.sessions[sid].(out := W.Step(cfg.cipher, s.sessions[sid].out, w))])
  }

  /** The read loop's dispatch.  A DeliverAck deletes from the session's own Inbox only. */
  function InboundStep(cfg: Config, s: State, sid: nat, plain: Bytes, fault: bool): State {
    if sid !in s.sessions || s.sessions[sid].pc.Acquired? then s
    else match Parse(plain)
      case Panic => Restarted(s)
      case Bad => Say(cfg, s, sid, W.Complain)
      case Parsed(t, body) =>
        if t == HEARTBEAT then Say(cfg, s, sid, W.Echo)
        else if t != DELIVER_ACK || DecodeDeliverAck(body).None? then Say(cfg, s, sid, W.Complain)
        else if fault then s
        else s.(table := DeleteFor(s.table, s.sessions[sid].key, [ToI64(DecodeDeliverAck(body).value)]))
  }

  function AfterPush(s: State, pid: nat, body: Bytes, r: PushResult): State {
    match r.outcome
    case Refused(why) => s.(buckets := r.buckets, pushes := s.pushes[pid := Declined(Reason(why))])
    case Accepted(row) =>
      s.(table := r.table, buckets := r.buckets, pushes := s.pushes[pid := Committed(row)],
         accepted := s.accepted[row.id := body])
  }

  function PushStep(cfg: Config, s: State, pid: nat, plain: Bytes, clock: L.Clock, wall: int, fault: bool): State {
    if pid in s.pushes then s
    else match Parse(plain)
      case Panic => Restarted(s)
      case Bad => s.(pushes := s.pushes[pid := Declined(REASON_MALFORMED)])
      case Parsed(t, body) =>
        if t != PUSH then s.(pushes := s.pushes[pid := Declined(REASON_MALFORMED)])
        else AfterPush(s, pid, body, Push(cfg, s.buckets, s.table, body, clock, wall, fault))
  }

  function BeginStep(s: State, pid: nat): State {
    if pid !in s.pushes || !s.pushes[pid].Committed? then s
    else
      var row := s.pushes[pid].row;
      var sl := if row.recipient in s.lists.subs then s.lists.subs[row.recipient] else N.Slice(0, 0);
      s.(pushes := s.pushes[pid := Fanning(row, sl.arr, F.Scan(sl.len, 0, None))])
  }

  function ReadStep(s: State, pid: nat): State {
    if pid !in s.pushes || !s.pushes[pid].Fanning? || s.pushes[pid].scan.hand.Some? then s
    else
      var p := s.pushes[pid];
      var slots, c := SlotsAt(s.lists.heap, p.arr), p.scan.cursor;
      if c < p.scan.limit && c < |slots|
      then s.(pushes := s.pushes[pid := p.(scan := F.Scan(p.scan.limit, c + 1, Some(slots[c])))])
      else s.(pushes := s.pushes[pid := Notified(p.row)])
  }

  /** The fan-out has read a channel and not yet sent to it. */
  predicate Holds(s: State, pid: nat) {
    pid in s.pushes && s.pushes[pid].Fanning? && s.pushes[pid].scan.hand.Some?
  }

  function SentOn(cfg: Config, s: State, pid: nat): State
    requires Holds(s, pid)
  {
    var p := s.pushes[pid];
    AtStep(cfg, s, p.scan.hand.value, Signal).(pushes := s.pushes[pid := p.(scan := p.scan.(hand := None))])
  }

  predicate ClosedAt(sessions: map<nat, Session>, ch: nat) {
    ch in sessions && sessions[ch].stage.Closed?
  }

  predicate ClosedIn(s: State, ch: nat) {
    ClosedAt(s.sessions, ch)
  }

  /** A send to a channel that has been closed panics. */
  function SendStep(cfg: Config, s: State, pid: nat): State {
    if !Holds(s, pid) then s
    else if ClosedIn(s, s.pushes[pid].scan.hand.value) then Restarted(s)
    else SentOn(cfg, s, pid)
  }

  function AckStep(s: State, pid: nat): State {
    if pid in s.pushes && s.pushes[pid].Notified?
    then s.(pushes := s.pushes[pid := Acked(s.pushes[pid].row)]) else s
  }

  function Step(cfg: Config, s: State, ev: Event): State {
    match ev
    case At(sid, e) => AtStep(cfg, s, sid, e)
    case Connect(sid, k) => ConnectStep(cfg, s, sid, k)
    case Subscribe(sid, ok, spare) => SubscribeStep(cfg, s, sid, ok, spare)
    case Unsubscribe(sid) => UnsubscribeStep(s, sid)
    case CloseChannel(sid) => CloseStep(s, sid)
    case Teardown(sid) => TeardownStep(cfg, s, sid)
    case Inbound(sid, plain, fault) => InboundStep(cfg, s, sid, plain, fault)
    case PushFrame(pid, plain, clock, wall, fault) => PushStep(cfg, s, pid, plain, clock, wall, fault)
    case BeginNotify(pid) => BeginStep(s, pid)
    case NotifyRead(pid) => ReadStep(s, pid)
    case NotifySend(pid) => SendStep(cfg, s, pid)
    case AckPush(pid) => AckStep(s, pid)
    case ReapNow(wall) => s.(table := Reap(s.table, wall))
    case Crash => Restarted(s)
  }

  predicate SessionEvent(ev: Event) {
    ev.At? || ev.Connect? || ev.Subscribe? || ev.Unsubscribe? || ev.CloseChannel? || ev.Teardown?
  }

  predicate FanOutEvent(ev: Event) {
    ev.BeginNotify? || ev.NotifyRead? || ev.NotifySend? || ev.AckPush?
  }

  predicate FrameEvent(ev: Event) {
    ev.Inbound? || ev.PushFrame? || ev.ReapNow? || ev.Crash?
  }

  function Run(cfg: Config, s: State, evs: seq<Event>): State {
    if evs == [] then s else Step(cfg, Run(cfg, s, evs[..|evs| - 1]), evs[|evs| - 1])
  }

  /** A well-formed Push frame is handled by OnPush. */
  lemma PushTakes(cfg: Config, s: State, pid: nat, plain: Bytes, body: Bytes, clock: L.Clock, wall: int, fault: bool)
    requires pid !in s.pushes && Parse(plain) == Parsed(PUSH, body)
    ensures PushStep(cfg, s, pid, plain, clock, wall, fault)
            == AfterPush(s, pid, body, Push(cfg, s.buckets, s.table, body, clock, wall, fault))
  {
  }

  lemma {:induction false} RunConcat(cfg: Config, s: State, a: seq<Event>, b: seq<Event>)
    ensures Run(cfg, s, a + b) == Run(cfg, Run(cfg, s, a), b)
  {
    if b == [] {
      assert a + b == a;
    } else {
      var init, last := b[..|b| - 1], b[|b| - 1];
      RunConcat(cfg, s, a, init);
      assert (a + b)[..|a + b| - 1] == a + init;
    }
  }

  lemma RunOne(cfg: Config, s: State, ev: Event)
    ensures Run(cfg, s, [ev]) == Step(cfg, s, ev)
  {
    assert [ev][..0] == [];
  }
}
