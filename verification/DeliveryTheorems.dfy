/** What the relay promises, over every run from an empty store. */
module DeliveryTheorems {
  import opened Base
  import opened Inbox
  import opened FrameCodec
  import opened Router
  import opened Delivery
  import opened DeliverySessions
  import opened DeliveryInvariants
  import opened DeliveryLists
  import opened DeliveryWake
  import W = SessionWriter
  import L = Limits
  import C = SessionCap
  import EnvelopeWire
  import Transport

  // ---------------------------------------------------------------- durable until acked

  /** The event removes row r: the owner's own DeliverAck for its id, or a reap at or after
      its expiry. */
  predicate Removes(s: State, ev: Event, r: Row) {
    match ev
    case Inbound(sid, plain, fault) =>
      && !fault && sid in s.sessions && !s.sessions[sid].pc.Acquired?
      && s.sessions[sid].key == r.recipient
      && AcksId(plain, r.id)
    case ReapNow(wall) => r.expiresAt <= Unix(wall)
    case _ => false
  }

  /** The id a frame acks, if it is a well-formed DeliverAck. */
  function AckedId(plain: Bytes): Option<int> {
    match Parse(plain)
    case Parsed(t, body) =>
      if t == DELIVER_ACK && DecodeDeliverAck(body).Some? then Some(ToI64(DecodeDeliverAck(body).value)) else None
    case _ => None
  }

  predicate AcksId(plain: Bytes, id: int) {
    AckedId(plain) == Some(id)
  }

  lemma AfterPushRows(cfg: Config, s: State, pid: nat, body: Bytes, clock: L.Clock, wall: int, fault: bool)
    ensures var s' := AfterPush(s, pid, body, Push(cfg, s.buckets, s.table, body, clock, wall, fault));
            s'.table == s.table
            || (s'.pushes[pid].Committed? && s'.pushes[pid].row.id == s.table.high + 1
                && s'.table == Table(s.table.rows + [s'.pushes[pid].row], s.table.high + 1))
  {
    AcceptedMatches(cfg, s.buckets, s.table, body, clock, wall, fault);
  }

  /** An inbound frame makes the relay say something, delete an acked row, or fail. */
  lemma InboundShape(cfg: Config, s: State, sid: nat, plain: Bytes, fault: bool)
    ensures var s' := InboundStep(cfg, s, sid, plain, fault);
            || s' == s
            || s' == Restarted(s)
            || (sid in s.sessions && exists w :: s' == Say(cfg, s, sid, w))
            || (sid in s.sessions && !s.sessions[sid].pc.Acquired? && !fault && exists id ::
                  AcksId(plain, id) && s' == s.(table := DeleteFor(s.table, s.sessions[sid].key, [id])))
  {
    var s' := InboundStep(cfg, s, sid, plain, fault);
    if sid in s.sessions && !s.sessions[sid].pc.Acquired? {
      match Parse(plain)
      case Panic =>
      case Bad => assert s' == Say(cfg, s, sid, W.Complain);
      case Parsed(t, body) =>
        if t == HEARTBEAT {
          assert s' == Say(cfg, s, sid, W.Echo);
        } else if t != DELIVER_ACK || DecodeDeliverAck(body).None? {
          assert s' == Say(cfg, s, sid, W.Complain);
        } else {
          assert AcksId(plain, ToI64(DecodeDeliverAck(body).value));
        }
    }
  }

  lemma InboundTable(cfg: Config, s: State, sid: nat, plain: Bytes, fault: bool)
    ensures InboundStep(cfg, s, sid, plain, fault).table
            == if sid in s.sessions && !s.sessions[sid].pc.Acquired? && !fault && AckedId(plain).Some?
               then DeleteFor(s.table, s.sessions[sid].key, [AckedId(plain).value]) else s.table
  {
  }

  lemma DeletedRows(t: Table, k: Key, id: int, r: Row)
    ensures r in DeleteFor(t, k, [id]).rows <==> r in t.rows && !(r.recipient == k && r.id == id)
  {
  }

  lemma InboundRows(cfg: Config, s: State, sid: nat, plain: Bytes, fault: bool, r: Row)
    ensures var s' := InboundStep(cfg, s, sid, plain, fault);
            && s'.table.high == s.table.high
            && (r in s'.table.rows <==> r in s.table.rows && !Removes(s, Inbound(sid, plain, fault), r))
  {
    InboundTable(cfg, s, sid, plain, fault);
    if sid in s.sessions && AckedId(plain).Some? {
      DeletedRows(s.table, s.sessions[sid].key, AckedId(plain).value, r);
    }
  }

  lemma PushRows(cfg: Config, s: State, pid: nat, plain: Bytes, clock: L.Clock, wall: int, fault: bool, r: Row)
    requires r.id <= s.table.high
    ensures var s' := PushStep(cfg, s, pid, plain, clock, wall, fault);
            && s'.table.high >= s.table.high
            && (r in s'.table.rows <==> r in s.table.rows)
  {
    match Parse(plain)
    case Parsed(t, body) => AfterPushRows(cfg, s, pid, body, clock, wall, fault);
    case _ =>
  }

  lemma StepRows(cfg: Config, s: State, ev: Event, r: Row)
    requires r.id <= s.table.high
    ensures r in Step(cfg, s, ev).table.rows <==> r in s.table.rows && !Removes(s, ev, r)
    ensures Step(cfg, s, ev).table.high >= s.table.high
  {
    match ev
    case Inbound(sid, plain, fault) => InboundRows(cfg, s, sid, plain, fault, r);
    case PushFrame(pid, plain, clock, wall, fault) => PushRows(cfg, s, pid, plain, clock, wall, fault, r);
    case _ =>
  }

  /** Event i of the run finds r stored and removes it. */
  predicate RemovedAt(cfg: Config, s: State, evs: seq<Event>, i: nat, r: Row)
    requires i < |evs|
  {
    r in Run(cfg, s, evs[..i]).table.rows && Removes(Run(cfg, s, evs[..i]), evs[i], r)
  }

  lemma RemovedInPrefix(cfg: Config, s: State, evs: seq<Event>, n: nat, i: nat, r: Row)
    requires i < n <= |evs|
    ensures RemovedAt(cfg, s, evs[..n], i, r) <==> RemovedAt(cfg, s, evs, i, r)
  {
    assert evs[..n][..i] == evs[..i];
  }

  /** A stored row is still there, unchanged, exactly as long as no event has removed it: not
      its owner's DeliverAck for it, and no reap at or after its expiry. */
  lemma {:induction false} DurableExactly(cfg: Config, s: State, evs: seq<Event>, r: Row)
    requires Valid(s.table) && r in s.table.rows
    ensures r in Run(cfg, s, evs).table.rows <==> forall i :: 0 <= i < |evs| ==> !RemovedAt(cfg, s, evs, i, r)
    ensures r.id <= Run(cfg, s, evs).table.high
  {
    if evs != [] {
      var n := |evs| - 1;
      DurableExactly(cfg, s, evs[..n], r);
      StepRows(cfg, Run(cfg, s, evs[..n]), evs[n], r);
      forall i | 0 <= i < n ensures RemovedAt(cfg, s, evs[..n], i, r) <==> RemovedAt(cfg, s, evs, i, r) {
        RemovedInPrefix(cfg, s, evs, n, i, r);
      }
      assert RemovedAt(cfg, s, evs, n, r)
        <==> r in Run(cfg, s, evs[..n]).table.rows && Removes(Run(cfg, s, evs[..n]), evs[n], r);
    }
  }

  /** A frame that acks nothing of the session's own leaves the store as it is: foreign,
      unknown and repeated ids alike. */
  lemma AckOfOthersIsSilent(cfg: Config, s: State, sid: nat, plain: Bytes, fault: bool)
    requires sid in s.sessions
    requires forall r :: r in s.table.rows && AcksId(plain, r.id) ==> r.recipient != s.sessions[sid].key
    ensures InboundStep(cfg, s, sid, plain, fault).table == s.table
  {
    InboundTable(cfg, s, sid, plain, fault);
    if AckedId(plain).Some? {
      var k, id := s.sessions[sid].key, AckedId(plain).value;
      KeepAll((r: Row) => !(r.recipient == k && r.id in [id]), s.table.rows);
    }
  }

  lemma {:induction false} KeepAll(p: Row -> bool, rows: seq<Row>)
    requires forall r :: r in rows ==> p(r)
    ensures Keep(p, rows) == rows
  {
    if rows != [] {
      var init, last := rows[..|rows| - 1], rows[|rows| - 1];
      assert rows == init + [last];
      KeepAll(p, init);
    }
  }

  /** What sessions do for themselves touches neither pushes nor what they leave behind. */
  lemma SessionEvents(cfg: Config, s: State, ev: Event)
    requires SessionEvent(ev)
    ensures var s' := Step(cfg, s, ev);
            s'.pushes == s.pushes && s'.accepted == s.accepted && s'.buckets == s.buckets && s'.table == s.table
  {
  }

  predicate FanEvent(ev: Event) {
    ev.BeginNotify? || ev.NotifyRead? || ev.AckPush?
  }

  /** A fan-out's quiet steps move one push along and change nothing else. */
  lemma FanEvents(cfg: Config, s: State, ev: Event)
    requires FanEvent(ev)
    ensures var s' := Step(cfg, s, ev);
            && s' == s.(pushes := s'.pushes)
            && forall p :: p in s'.pushes ==>
                 p in s.pushes && (HasRow(s'.pushes[p]) ==> HasRow(s.pushes[p]) && s.pushes[p].row == s'.pushes[p].row)
  {
  }

  /** A step that is not a push gives no push a row. */
  lemma OldRows(cfg: Config, s: State, ev: Event, pid: nat)
    requires !ev.PushFrame? && pid in Step(cfg, s, ev).pushes && HasRow(Step(cfg, s, ev).pushes[pid])
    ensures pid in s.pushes && HasRow(s.pushes[pid]) && s.pushes[pid].row == Step(cfg, s, ev).pushes[pid].row
  {
    if SessionEvent(ev) {
      SessionEvents(cfg, s, ev);
    } else if FanEvent(ev) {
      FanEvents(cfg, s, ev);
    } else {
      match ev
      case Inbound(sid, plain, fault) => InboundSource(cfg, s, sid, plain, fault);
      case NotifySend(p) => SendSource(cfg, s, p, pid);
      case ReapNow(_) =>
      case Crash =>
    }
  }

  lemma InboundSource(cfg: Config, s: State, sid: nat, plain: Bytes, fault: bool)
    ensures InboundStep(cfg, s, sid, plain, fault).pushes == s.pushes
            || InboundStep(cfg, s, sid, plain, fault) == Restarted(s)
  {
    InboundShape(cfg, s, sid, plain, fault);
  }

  lemma SendSource(cfg: Config, s: State, p: nat, pid: nat)
    requires pid in SendStep(cfg, s, p).pushes && HasRow(SendStep(cfg, s, p).pushes[pid])
    ensures pid in s.pushes && HasRow(s.pushes[pid]) && s.pushes[pid].row == SendStep(cfg, s, p).pushes[pid].row
  {
  }

  /** The event is push pid's own frame, and r the row it asks for: recipient and envelope are
      the frame's body, and the expiry is the push's wall time plus the time to live. */
  predicate PushedAs(cfg: Config, ev: Event, pid: nat, r: Row) {
    && ev.PushFrame? && ev.pid == pid
    && Parse(ev.plain) == Parsed(PUSH, r.recipient + r.envelope)
    && r.expiresAt == Unix(ev.wall + cfg.ttl)
  }

  lemma AfterPushSource(cfg: Config, s: State, p: nat, body: Bytes, clock: L.Clock, wall: int, fault: bool, pid: nat)
    requires p !in s.pushes && Valid(s.table)
    requires var s' := AfterPush(s, p, body, Push(cfg, s.buckets, s.table, body, clock, wall, fault));
             pid in s'.pushes && HasRow(s'.pushes[pid])
    ensures var s' := AfterPush(s, p, body, Push(cfg, s.buckets, s.table, body, clock, wall, fault));
            var r := s'.pushes[pid].row;
            || (pid in s.pushes && HasRow(s.pushes[pid]) && s.pushes[pid].row == r)
            || (pid == p && body == r.recipient + r.envelope && r.expiresAt == Unix(wall + cfg.ttl)
                && r !in s.table.rows && r in s'.table.rows)
  {
    AcceptedMatches(cfg, s.buckets, s.table, body, clock, wall, fault);
  }

  /** Where a push's row comes from: an earlier state of the same push, or its own frame. */
  lemma RowSource(cfg: Config, s: State, ev: Event, pid: nat)
    requires Valid(s.table) && pid in Step(cfg, s, ev).pushes && HasRow(Step(cfg, s, ev).pushes[pid])
    ensures var s' := Step(cfg, s, ev);
            var r := s'.pushes[pid].row;
            || (pid in s.pushes && HasRow(s.pushes[pid]) && s.pushes[pid].row == r)
            || (PushedAs(cfg, ev, pid, r) && r !in s.table.rows && r in s'.table.rows)
  {
    if ev.PushFrame? {
      PushSource(cfg, s, ev, pid);
    } else {
      OldRows(cfg, s, ev, pid);
    }
  }

  lemma PushSource(cfg: Config, s: State, ev: Event, pid: nat)
    requires Valid(s.table) && ev.PushFrame?
    requires var s' := PushStep(cfg, s, ev.pid, ev.plain, ev.clock, ev.wall, ev.fault);
             pid in s'.pushes && HasRow(s'.pushes[pid])
    ensures var s' := PushStep(cfg, s, ev.pid, ev.plain, ev.clock, ev.wall, ev.fault);
            var r := s'.pushes[pid].row;
            || (pid in s.pushes && HasRow(s.pushes[pid]) && s.pushes[pid].row == r)
            || (PushedAs(cfg, ev, pid, r) && r !in s.table.rows && r in s'.table.rows)
  {
    if ev.pid !in s.pushes && Parse(ev.plain).Parsed? && Parse(ev.plain).typ == PUSH {
      var body := Parse(ev.plain).body;
      PushTakes(cfg, s, ev.pid, ev.plain, body, ev.clock, ev.wall, ev.fault);
      AfterPushSource(cfg, s, ev.pid, body, ev.clock, ev.wall, ev.fault, pid);
    }
  }

  /** Event i of the run is push pid's frame and stores r. */
  predicate StoredAt(cfg: Config, evs: seq<Event>, i: nat, pid: nat, r: Row)
    requires i < |evs|
  {
    && PushedAs(cfg, evs[i], pid, r)
    && r !in Run(cfg, Init, evs[..i]).table.rows && r in Run(cfg, Init, evs[..i + 1]).table.rows
  }

  lemma StoredInPrefix(cfg: Config, evs: seq<Event>, n: nat, i: nat, pid: nat, r: Row)
    requires i < n <= |evs|
    ensures StoredAt(cfg, evs[..n], i, pid, r) <==> StoredAt(cfg, evs, i, pid, r)
  {
    assert evs[..n][..i] == evs[..i] && evs[..n][..i + 1] == evs[..i + 1];
  }

  lemma {:induction false} RowOrigin(cfg: Config, evs: seq<Event>, pid: nat) returns (i: nat)
    requires cfg.Ok() && pid in Run(cfg, Init, evs).pushes && HasRow(Run(cfg, Init, evs).pushes[pid])
    ensures i < |evs| && StoredAt(cfg, evs, i, pid, Run(cfg, Init, evs).pushes[pid].row)
  {
    var n := |evs| - 1;
    var s, r := Run(cfg, Init, evs[..n]), Run(cfg, Init, evs).pushes[pid].row;
    ReachableValid(cfg, evs[..n]);
    RowSource(cfg, s, evs[n], pid);
    if pid in s.pushes && HasRow(s.pushes[pid]) && s.pushes[pid].row == r {
      i := RowOrigin(cfg, evs[..n], pid);
      StoredInPrefix(cfg, evs, n, i, pid, r);
    } else {
      i := n;
      assert evs[..n + 1] == evs;
    }
  }

  /** Removals after the first n events are those of the rest of the run. */
  lemma RemovedLater(cfg: Config, evs: seq<Event>, n: nat, j: nat, r: Row)
    requires n <= j < |evs|
    ensures RemovedAt(cfg, Init, evs, j, r) <==> RemovedAt(cfg, Run(cfg, Init, evs[..n]), evs[n..], j - n, r)
  {
    RunConcat(cfg, Init, evs[..n], evs[n..][..j - n]);
    TakeSplits(evs, n, j);
  }

  lemma TakeSplits<T>(s: seq<T>, n: nat, j: nat)
    requires n <= j <= |s|
    ensures s[..n] + s[n..][..j - n] == s[..j]
  {
  }

  /** What happens to a row after event i stored it. */
  lemma StaysExactly(cfg: Config, evs: seq<Event>, i: nat, r: Row)
    requires cfg.Ok() && i < |evs| && r in Run(cfg, Init, evs[..i + 1]).table.rows
    ensures r in Run(cfg, Init, evs).table.rows
            <==> forall j :: i < j < |evs| ==> !RemovedAt(cfg, Init, evs, j, r)
  {
    var n := i + 1;
    var s, rest := Run(cfg, Init, evs[..n]), evs[n..];
    DurableFrom(cfg, evs, n, r);
    if j :| n <= j < |evs| && RemovedAt(cfg, Init, evs, j, r) {
      RemovedLater(cfg, evs, n, j, r);
      assert RemovedAt(cfg, s, rest, j - n, r);
    } else {
      forall m | 0 <= m < |rest| ensures !RemovedAt(cfg, s, rest, m, r) {
        RemovedLater(cfg, evs, n, m + n, r);
      }
    }
  }

  lemma ReachableValid(cfg: Config, evs: seq<Event>)
    requires cfg.Ok()
    ensures Valid(Run(cfg, Init, evs).table)
  {
    InitInv(cfg);
    RunInv(cfg, Init, evs);
  }

  lemma DurableFrom(cfg: Config, evs: seq<Event>, n: nat, r: Row)
    requires cfg.Ok() && n <= |evs| && r in Run(cfg, Init, evs[..n]).table.rows
    ensures r in Run(cfg, Init, evs).table.rows
            <==> forall m :: 0 <= m < |evs[n..]| ==> !RemovedAt(cfg, Run(cfg, Init, evs[..n]), evs[n..], m, r)
  {
    ReachableValid(cfg, evs[..n]);
    DurableExactly(cfg, Run(cfg, Init, evs[..n]), evs[n..], r);
    RunConcat(cfg, Init, evs[..n], evs[n..]);
    assert evs[..n] + evs[n..] == evs;
  }

  /** Once a push is committed, and so once it is Acked, its own frame was an event of the run
      and stored a row: recipient and envelope are that frame's body, byte for byte, and the
      expiry is that push's wall time plus the time to live.  The row is still there exactly if
      no later event met it that is its owner's DeliverAck for it or a reap at or after its
      expiry. */
  lemma AckedIsDurable(cfg: Config, evs: seq<Event>, pid: nat)
    requires cfg.Ok() && pid in Run(cfg, Init, evs).pushes && HasRow(Run(cfg, Init, evs).pushes[pid])
    ensures var r := Run(cfg, Init, evs).pushes[pid].row;
            exists i :: 0 <= i < |evs| && StoredAt(cfg, evs, i, pid, r)
                        && (r in Run(cfg, Init, evs).table.rows
                            <==> forall j :: i < j < |evs| ==> !RemovedAt(cfg, Init, evs, j, r))
  {
    var i := RowOrigin(cfg, evs, pid);
    StaysExactly(cfg, evs, i, Run(cfg, Init, evs).pushes[pid].row);
  }

  lemma NewRow(cfg: Config, s: State, ev: Event, r: Row)
    requires Valid(s.table) && r in Step(cfg, s, ev).table.rows && r !in s.table.rows
    ensures ev.PushFrame? && PushedAs(cfg, ev, ev.pid, r)
  {
    match ev
    case PushFrame(pid, plain, clock, wall, fault) => NewPushRow(cfg, s, ev, r);
    case Inbound(sid, plain, fault) => InboundRows(cfg, s, sid, plain, fault, r);
    case _ =>
  }

  lemma NewPushRow(cfg: Config, s: State, ev: Event, r: Row)
    requires ev.PushFrame? && r !in s.table.rows
    requires r in PushStep(cfg, s, ev.pid, ev.plain, ev.clock, ev.wall, ev.fault).table.rows
    ensures PushedAs(cfg, ev, ev.pid, r)
  {
    match Parse(ev.plain)
    case Parsed(t, body) =>
      if ev.pid !in s.pushes && t == PUSH {
        AfterPushNew(cfg, s, ev.pid, body, ev.clock, ev.wall, ev.fault, r);
      }
    case _ =>
  }

  lemma AfterPushNew(cfg: Config, s: State, p: nat, body: Bytes, clock: L.Clock, wall: int, fault: bool, r: Row)
    requires r !in s.table.rows
    requires r in AfterPush(s, p, body, Push(cfg, s.buckets, s.table, body, clock, wall, fault)).table.rows
    ensures body == r.recipient + r.envelope && r.expiresAt == Unix(wall + cfg.ttl)
  {
    AcceptedMatches(cfg, s.buckets, s.table, body, clock, wall, fault);
  }

  /** Every stored row is the row of some push of the run, with its body and its expiry. */
  lemma {:induction false} StoredWasPushed(cfg: Config, evs: seq<Event>, r: Row)
    requires cfg.Ok() && r in Run(cfg, Init, evs).table.rows
    ensures exists i, pid :: 0 <= i < |evs| && StoredAt(cfg, evs, i, pid, r)
  {
    var n := |evs| - 1;
    var s := Run(cfg, Init, evs[..n]);
    if r in s.table.rows {
      StoredWasPushed(cfg, evs[..n], r);
      var i, pid :| 0 <= i < n && StoredAt(cfg, evs[..n], i, pid, r);
      StoredInPrefix(cfg, evs, n, i, pid, r);
    } else {
      ReachableValid(cfg, evs[..n]);
      NewRow(cfg, s, evs[n], r);
      assert evs[..n + 1] == evs;
      assert StoredAt(cfg, evs, n, evs[n].pid, r);
    }
  }

  // ---------------------------------------------------------------- no lost wake-up

  /** When a live session is back at its select with no signal waiting, no push still owes it
      one and no wake-up of its is on record as lost, then every row left in its Inbox has been
      sent to it - exactly once, and with the stored bytes. */
  lemma QuiescentIsDelivered(cfg: Config, evs: seq<Event>, sid: nat, r: Row)
    requires cfg.Ok()
    requires var s := Run(cfg, Init, evs);
             && sid in s.sessions && r in s.table.rows
             && var ss := s.sessions[sid];
             && r.recipient == ss.key
             && Live(ss) && ss.pc.Waiting? && !ss.signal && !ss.behind && !PendingIn(s, sid)
    ensures var sent := Run(cfg, Init, evs).sessions[sid].sent;
            exists i :: 0 <= i < |sent| && sent[i] == r.ToBlob()
              && forall j :: 0 <= j < |sent| && j != i ==> sent[j].id != r.id
  {
    InitInv(cfg);
    RunInv(cfg, Init, evs);
    var s := Run(cfg, Init, evs);
    SeenIsSent(s.table, s.sessions[sid], r);
  }

  lemma SeenIsSent(t: Table, ss: Session, r: Row)
    requires OrderOk(t, ss) && CoverageOk(t, ss) && AllSeen(t, ss) && !ss.pc.Sending?
    requires r in t.rows && r.recipient == ss.key
    ensures exists i :: 0 <= i < |ss.sent| && ss.sent[i] == r.ToBlob()
                        && forall j :: 0 <= j < |ss.sent| && j != i ==> ss.sent[j].id != r.id
  {
    assert Known(ss) == ss.sent;
    var i :| 0 <= i < |ss.sent| && ss.sent[i] == r.ToBlob();
    forall j | 0 <= j < |ss.sent| && j != i ensures ss.sent[j].id != r.id {
      assert j < i ==> ss.sent[j].id < ss.sent[i].id;
      assert i < j ==> ss.sent[i].id < ss.sent[j].id;
    }
  }

  // ---------------------------------------------------------------- end to end

  /** The event is a Push frame carrying this body. */
  predicate Pushes(ev: Event, body: Bytes) {
    ev.PushFrame? && Parse(ev.plain) == Parsed(PUSH, body)
  }

  /** Only a push adds to the record, and nothing takes from it. */
  lemma OldAccepted(cfg: Config, s: State, ev: Event)
    requires !ev.PushFrame?
    ensures Step(cfg, s, ev).accepted == s.accepted
  {
    if SessionEvent(ev) {
      SessionEvents(cfg, s, ev);
    } else if FanEvent(ev) {
      FanEvents(cfg, s, ev);
    } else {
      match ev
      case Inbound(sid, plain, fault) => InboundAccepted(cfg, s, sid, plain, fault);
      case NotifySend(pid) => SendAccepted(cfg, s, pid);
      case ReapNow(_) =>
      case Crash =>
    }
  }

  lemma InboundAccepted(cfg: Config, s: State, sid: nat, plain: Bytes, fault: bool)
    ensures InboundStep(cfg, s, sid, plain, fault).accepted == s.accepted
  {
    InboundShape(cfg, s, sid, plain, fault);
  }

  lemma SendAccepted(cfg: Config, s: State, pid: nat)
    ensures SendStep(cfg, s, pid).accepted == s.accepted
  {
  }

  lemma AcceptedStep(cfg: Config, s: State, ev: Event, id: int)
    requires id in Step(cfg, s, ev).accepted
    ensures var s' := Step(cfg, s, ev);
            (id in s.accepted && s'.accepted[id] == s.accepted[id]) || Pushes(ev, s'.accepted[id])
  {
    if ev.PushFrame? {
      PushAccepts(cfg, s, ev.pid, ev.plain, ev.clock, ev.wall, ev.fault, id);
    } else {
      OldAccepted(cfg, s, ev);
    }
  }

  lemma PushAccepts(cfg: Config, s: State, p: nat, plain: Bytes, clock: L.Clock, wall: int, fault: bool, id: int)
    requires id in PushStep(cfg, s, p, plain, clock, wall, fault).accepted
    ensures var s' := PushStep(cfg, s, p, plain, clock, wall, fault);
            (id in s.accepted && s'.accepted[id] == s.accepted[id])
            || Parse(plain) == Parsed(PUSH, s'.accepted[id])
  {
    match Parse(plain)
    case Parsed(t, body) =>
      if p !in s.pushes && t == PUSH {
        AfterPushAccepts(s, p, body, Push(cfg, s.buckets, s.table, body, clock, wall, fault), id);
      }
    case _ =>
  }

  lemma AfterPushAccepts(s: State, p: nat, body: Bytes, r: PushResult, id: int)
    requires id in AfterPush(s, p, body, r).accepted
    ensures var s' := AfterPush(s, p, body, r);
            (id in s.accepted && s'.accepted[id] == s.accepted[id]) || s'.accepted[id] == body
  {
  }

  /** Every recorded body was pushed. */
  lemma {:induction false} AcceptedWasPushed(cfg: Config, evs: seq<Event>, id: int)
    requires id in Run(cfg, Init, evs).accepted
    ensures exists i :: 0 <= i < |evs| && Pushes(evs[i], Run(cfg, Init, evs).accepted[id])
  {
    if evs != [] {
      var n := |evs| - 1;
      AcceptedStep(cfg, Run(cfg, Init, evs[..n]), evs[n], id);
      if !Pushes(evs[n], Run(cfg, Init, evs).accepted[id]) {
        AcceptedWasPushed(cfg, evs[..n], id);
        var i :| 0 <= i < n && Pushes(evs[..n][i], Run(cfg, Init, evs[..n]).accepted[id]);
        assert Pushes(evs[i], Run(cfg, Init, evs).accepted[id]);
      }
    }
  }

  /** What a Device decodes from the first n bytes of its connection, however many arrive: ids
      strictly increase, so nothing comes twice, and every blob is the envelope of some push
      whose routing prefix and whose envelope both name this Device. */
  lemma EndToEnd(cfg: Config, evs: seq<Event>, sid: nat, n: nat)
    requires cfg.Ok() && sid in Run(cfg, Init, evs).sessions
    requires n <= |Run(cfg, Init, evs).sessions[sid].out.stream|
    ensures var ss := Run(cfg, Init, evs).sessions[sid];
            var seen := W.DeviceBlobs(cfg.cipher, ss.out.stream[..n]);
            && IsPrefix(seen, ss.sent)
            && Increasing(seen)
            && forall b :: b in seen ==>
                 && EnvelopeWire.Addresses(b.envelope, ss.key)
                 && exists i :: 0 <= i < |evs| && Pushes(evs[i], ss.key + b.envelope)
  {
    var s := Run(cfg, Init, evs);
    SessionReachable(cfg, evs, sid);
    SeenIsSome(cfg.cipher, s.table, s.sessions[sid], n);
    forall b | b in W.DeviceBlobs(cfg.cipher, s.sessions[sid].out.stream[..n])
      ensures EnvelopeWire.Addresses(b.envelope, s.sessions[sid].key)
              && exists i :: 0 <= i < |evs| && Pushes(evs[i], s.sessions[sid].key + b.envelope)
    {
      assert FromPush(cfg, s.accepted, s.sessions[sid].key, b);
      EnvelopeWire.RecipientIsGrammar(b.envelope, s.sessions[sid].key);
      AcceptedWasPushed(cfg, evs, b.id);
    }
  }

  lemma SessionReachable(cfg: Config, evs: seq<Event>, sid: nat)
    requires cfg.Ok() && sid in Run(cfg, Init, evs).sessions
    ensures var s := Run(cfg, Init, evs); SessionOk(cfg, s.table, s.accepted, s.sessions[sid])
  {
    InitInv(cfg);
    RunInv(cfg, Init, evs);
  }

  /** What a Device sees is a prefix of what was sent, and so of what is known. */
  lemma SeenIsSome(c: W.Cipher, t: Table, ss: Session, n: nat)
    requires W.Sound(c) && ChannelOk(c, ss) && OrderOk(t, ss) && n <= |ss.out.stream|
    ensures var seen := W.DeviceBlobs(c, ss.out.stream[..n]);
            IsPrefix(seen, ss.sent) && Increasing(seen) && forall b :: b in seen ==> b in Known(ss)
  {
    W.DeviceBlobsOfPrefix(c, ss.out.stream, n);
    W.DeviceSeesPrefix(c, ss.out);
    PrefixOfSum(W.DeviceBlobs(c, ss.out.stream[..n]), ss.out.taken, ss.channel, Batch(ss));
  }

  lemma PrefixOfSum(seen: seq<Blob>, taken: seq<Blob>, channel: seq<Blob>, batch: seq<Blob>)
    requires IsPrefix(seen, taken) && Increasing(taken + channel + batch)
    ensures IsPrefix(seen, taken + channel) && Increasing(seen)
    ensures forall b :: b in seen ==> b in taken + channel + batch
  {
    var all := taken + channel + batch;
    assert forall i :: 0 <= i < |seen| ==> seen[i] == all[i];
  }

  /** Every stored envelope fits one Deliver frame of its recipient's session. */
  lemma StoredFits(cfg: Config, evs: seq<Event>, r: Row)
    requires cfg.Ok() && r in Run(cfg, Init, evs).table.rows
    ensures |W.DeliverFrame(r.ToBlob())| + Transport.TAG_BYTES <= Transport.MAX_NOISE
  {
    InitInv(cfg);
    RunInv(cfg, Init, evs);
    assert RowOk(cfg, Run(cfg, Init, evs).accepted, r);
    Transport.SizeBudget(r.recipient, r.envelope, ToU64(r.id));
  }

  /** Quotas and session slots over every run. */
  lemma LimitsHold(cfg: Config, evs: seq<Event>, k: Key)
    requires cfg.Ok()
    ensures var s := Run(cfg, Init, evs);
            && (cfg.quota.maxBlobs > 0 ==> BlobCount(s.table.rows, k) <= cfg.quota.maxBlobs)
            && (cfg.quota.maxBytes > 0 ==> ByteCount(s.table.rows, k) <= cfg.quota.maxBytes)
            && (cfg.sessionMax > 0 ==> C.Slots(s.active, k) == |Holders(s.sessions, k)| <= cfg.sessionMax)
  {
    InitInv(cfg);
    RunInv(cfg, Init, evs);
  }

  lemma LocalDone(c: W.Cipher, t: Table, ss: Session, e: LocalEvent)
    requires ss.pc.Done?
    ensures Local(c, t, ss, e).pc.Done?
  {
  }

  predicate DoneIn(s: State, sid: nat) {
    sid in s.sessions && s.sessions[sid].pc.Done?
  }

  lemma InboundDone(cfg: Config, s: State, sid: nat, plain: Bytes, fault: bool, o: nat)
    requires DoneIn(s, o)
    ensures var s' := InboundStep(cfg, s, sid, plain, fault); s' == Restarted(s) || DoneIn(s', o)
  {
    InboundShape(cfg, s, sid, plain, fault);
  }

  lemma SendDone(cfg: Config, s: State, p: nat, o: nat)
    requires DoneIn(s, o)
    ensures SendStep(cfg, s, p) == Restarted(s) || DoneIn(SendStep(cfg, s, p), o)
  {
    LocalDone(cfg.cipher, s.table, s.sessions[o], Signal);
  }

  lemma AtDone(cfg: Config, s: State, sid: nat, e: LocalEvent, o: nat)
    requires DoneIn(s, o)
    ensures DoneIn(AtStep(cfg, s, sid, e), o)
  {
    LocalDone(cfg.cipher, s.table, s.sessions[o], e);
  }

  lemma ListDone(cfg: Config, s: State, sid: nat, ok: bool, spare: nat, o: nat)
    requires DoneIn(s, o)
    ensures DoneIn(SubscribeStep(cfg, s, sid, ok, spare), o) && DoneIn(UnsubscribeStep(s, sid), o)
    ensures DoneIn(CloseStep(s, sid), o)
  {
  }

  /** A slot given back is not given back again: a finished session stays finished until a
      restart forgets it. */
  lemma DoneIsFinal(cfg: Config, s: State, ev: Event, sid: nat)
    requires DoneIn(s, sid)
    ensures Step(cfg, s, ev) == Restarted(s) || DoneIn(Step(cfg, s, ev), sid)
  {
    match ev
    case At(o, e) => AtDone(cfg, s, o, e, sid);
    case Subscribe(o, ok, spare) => ListDone(cfg, s, o, ok, spare, sid);
    case Unsubscribe(o) => ListDone(cfg, s, o, true, 0, sid);
    case CloseChannel(o) => ListDone(cfg, s, o, true, 0, sid);
    case PushFrame(p, plain, clock, wall, fault) => PushKeepsSessions(cfg, s, p, plain, clock, wall, fault);
    case Inbound(o, plain, fault) => InboundDone(cfg, s, o, plain, fault, sid);
    case NotifySend(p) => SendDone(cfg, s, p, sid);
    case _ =>
  }
}
