/** What every step keeps true of rows, streams, quotas and session slots. */
module DeliveryInvariants {
  import opened Base
  import opened Inbox
  import opened FrameCodec
  import opened Router
  import opened Delivery
  import opened DeliverySessions
  import W = SessionWriter
  import N = Notifier
  import L = Limits
  import C = SessionCap

  // ---------------------------------------------------------------- rows, streams and pushes

  predicate HasRow(p: Progress) {
    !p.Declined?
  }

  ghost predicate PushesOk(cfg: Config, s: State) {
    forall p :: p in s.pushes && HasRow(s.pushes[p]) ==> RowOk(cfg, s.accepted, s.pushes[p].row)
  }

  ghost predicate SessionsOk(cfg: Config, s: State) {
    forall sid :: sid in s.sessions ==> SessionOk(cfg, s.table, s.accepted, s.sessions[sid])
  }

  ghost predicate StreamsOk(cfg: Config, s: State) {
    && RowsOk(cfg, s.table, s.accepted)
    && WithinQuota(s.table, cfg.quota)
    && SessionsOk(cfg, s)
    && PushesOk(cfg, s)
  }

  /** A step that changes one session only. */
  lemma OneSession(cfg: Config, s: State, s': State, sid: nat)
    requires StreamsOk(cfg, s) && s'.table == s.table && s'.accepted == s.accepted && s'.pushes == s.pushes
    requires sid in s'.sessions && s'.sessions == s.sessions[sid := s'.sessions[sid]]
    requires SessionOk(cfg, s.table, s.accepted, s'.sessions[sid])
    ensures StreamsOk(cfg, s')
  {
    forall q | q in s'.sessions ensures SessionOk(cfg, s'.table, s'.accepted, s'.sessions[q]) {
      assert q != sid ==> s'.sessions[q] == s.sessions[q];
    }
  }

  lemma AtStreams(cfg: Config, s: State, sid: nat, e: LocalEvent)
    requires cfg.Ok() && StreamsOk(cfg, s)
    ensures StreamsOk(cfg, AtStep(cfg, s, sid, e))
  {
    if sid in s.sessions {
      LocalOk(cfg, s.table, s.accepted, s.sessions[sid], e);
      OneSession(cfg, s, AtStep(cfg, s, sid, e), sid);
    }
  }

  lemma ConnectStreams(cfg: Config, s: State, sid: nat, k: Key)
    requires StreamsOk(cfg, s)
    ensures StreamsOk(cfg, ConnectStep(cfg, s, sid, k))
  {
    NewSessionOk(cfg, s.table, s.accepted, k);
    if sid !in s.sessions && C.Acquire(cfg.sessionMax, s.active, k).0 {
      OneSession(cfg, s, ConnectStep(cfg, s, sid, k), sid);
    }
  }

  lemma LeaveStreams(cfg: Config, s: State, sid: nat)
    requires StreamsOk(cfg, s) && sid in s.sessions && !s.sessions[sid].pc.Sending?
    ensures StreamsOk(cfg, Leave(cfg, s, sid))
  {
    MoveOk(cfg, s.table, s.accepted, s.sessions[sid], Done);
    OneSession(cfg, s, Leave(cfg, s, sid), sid);
  }

  /** Neither the stage of its subscription nor its history of wake-ups is part of a stream. */
  lemma StageOk(cfg: Config, t: Table, accepted: map<int, Bytes>, ss: Session, stage: Stage, behind: bool)
    requires SessionOk(cfg, t, accepted, ss)
    ensures SessionOk(cfg, t, accepted, ss.(stage := stage, behind := behind))
  {
    assert Known(ss.(stage := stage, behind := behind)) == Known(ss);
  }

  lemma WithListsStreams(cfg: Config, s: State, lists: N.Lists)
    requires StreamsOk(cfg, s)
    ensures StreamsOk(cfg, WithLists(s, lists))
  {
    var s' := WithLists(s, lists);
    forall sid | sid in s'.sessions ensures SessionOk(cfg, s'.table, s'.accepted, s'.sessions[sid]) {
      StageOk(cfg, s.table, s.accepted, s.sessions[sid], s.sessions[sid].stage, s'.sessions[sid].behind);
    }
  }

  lemma SubscribeStreams(cfg: Config, s: State, sid: nat, ok: bool, spare: nat)
    requires StreamsOk(cfg, s)
    ensures StreamsOk(cfg, SubscribeStep(cfg, s, sid, ok, spare))
  {
    if sid in s.sessions && s.sessions[sid].pc.Acquired? {
      if ok {
        var ss := s.sessions[sid];
        var s1 := s.(sessions := s.sessions[sid := ss.(pc := FirstPeek, stage := Listening)]);
        MoveOk(cfg, s.table, s.accepted, ss, FirstPeek);
        StageOk(cfg, s.table, s.accepted, ss.(pc := FirstPeek), Listening, ss.behind);
        OneSession(cfg, s, s1, sid);
        WithListsStreams(cfg, s1, N.Subscribed(s.lists, ss.key, sid, spare));
      } else {
        LeaveStreams(cfg, s, sid);
      }
    }
  }

  lemma StageStreams(cfg: Config, s: State, sid: nat, stage: Stage)
    requires StreamsOk(cfg, s) && sid in s.sessions
    ensures StreamsOk(cfg, s.(sessions := s.sessions[sid := s.sessions[sid].(stage := stage)]))
  {
    StageOk(cfg, s.table, s.accepted, s.sessions[sid], stage, s.sessions[sid].behind);
    OneSession(cfg, s, s.(sessions := s.sessions[sid := s.sessions[sid].(stage := stage)]), sid);
  }

  lemma UnsubscribeStreams(cfg: Config, s: State, sid: nat)
    requires StreamsOk(cfg, s)
    ensures StreamsOk(cfg, UnsubscribeStep(s, sid))
  {
    if UnsubscribeStep(s, sid) != s {
      var ss := s.sessions[sid];
      StageStreams(cfg, s, sid, Removed);
      WithListsStreams(cfg, s.(sessions := s.sessions[sid := ss.(stage := Removed)]),
                       N.Unsubscribed(s.lists, ss.key, sid));
    }
  }

  lemma CloseStreams(cfg: Config, s: State, sid: nat)
    requires StreamsOk(cfg, s)
    ensures StreamsOk(cfg, CloseStep(s, sid))
  {
    if CloseStep(s, sid) != s {
      StageStreams(cfg, s, sid, Closed);
    }
  }

  lemma KeepStreams(cfg: Config, s: State, p: Row -> bool)
    requires StreamsOk(cfg, s)
    ensures StreamsOk(cfg, s.(table := Table(Keep(p, s.table.rows), s.table.high)))
  {
    var u := Table(Keep(p, s.table.rows), s.table.high);
    KeepValid(s.table, p);
    KeepWithinQuota(s.table, p, cfg.quota);
    forall sid | sid in s.sessions ensures SessionOk(cfg, u, s.accepted, s.sessions[sid]) {
      ShrinkOk(cfg, s.table, u, s.accepted, s.sessions[sid]);
    }
  }

  lemma RestartedStreams(cfg: Config, s: State)
    requires StreamsOk(cfg, s)
    ensures StreamsOk(cfg, Restarted(s))
  {
  }

  lemma SayIsOutput(cfg: Config, s: State, sid: nat, w: W.WriterEvent)
    requires sid in s.sessions
    ensures Say(cfg, s, sid, w) == AtStep(cfg, s, sid, Output(w))
  {
  }

  lemma InboundStreams(cfg: Config, s: State, sid: nat, plain: Bytes, fault: bool)
    requires cfg.Ok() && StreamsOk(cfg, s)
    ensures StreamsOk(cfg, InboundStep(cfg, s, sid, plain, fault))
  {
    RestartedStreams(cfg, s);
    if sid in s.sessions {
      SayIsOutput(cfg, s, sid, W.Complain);
      SayIsOutput(cfg, s, sid, W.Echo);
    }
    AtStreams(cfg, s, sid, Output(W.Complain));
    AtStreams(cfg, s, sid, Output(W.Echo));
    match Parse(plain)
    case Parsed(t, body) =>
      if sid in s.sessions && t == DELIVER_ACK && DecodeDeliverAck(body).Some? {
        var k, ids := s.sessions[sid].key, [ToI64(DecodeDeliverAck(body).value)];
        KeepStreams(cfg, s, (r: Row) => !(r.recipient == k && r.id in ids));
      }
    case _ =>
  }

  lemma AcceptStreams(cfg: Config, s: State, pid: nat, body: Bytes, clock: L.Clock, wall: int, fault: bool)
    requires StreamsOk(cfg, s)
    ensures StreamsOk(cfg, AfterPush(s, pid, body, Push(cfg, s.buckets, s.table, body, clock, wall, fault)))
  {
    var r := Push(cfg, s.buckets, s.table, body, clock, wall, fault);
    AcceptedMatches(cfg, s.buckets, s.table, body, clock, wall, fault);
    if r.outcome.Accepted? {
      AcceptRows(cfg, s, body, r.outcome.row);
      AcceptQuota(cfg, s.buckets, s.table, body, clock, wall, fault);
      var row, s' := r.outcome.row, AfterPush(s, pid, body, r);
      forall sid | sid in s.sessions ensures SessionOk(cfg, s'.table, s'.accepted, s.sessions[sid]) {
        GrowOk(cfg, s.table, s.accepted, row, body, s.sessions[sid]);
      }
    }
  }

  lemma AcceptRows(cfg: Config, s: State, body: Bytes, row: Row)
    requires RowsOk(cfg, s.table, s.accepted) && PushesOk(cfg, s)
    requires RowMatches(cfg, body, row) && row.id == s.table.high + 1 <= MAX_ID
    ensures RowsOk(cfg, Table(s.table.rows + [row], row.id), s.accepted[row.id := body])
    ensures RowOk(cfg, s.accepted[row.id := body], row)
    ensures forall p :: p in s.pushes && HasRow(s.pushes[p]) ==> RowOk(cfg, s.accepted[row.id := body], s.pushes[p].row)
  {
  }

  lemma AcceptQuota(cfg: Config, buckets: L.Buckets, t: Table, body: Bytes, clock: L.Clock, wall: int, fault: bool)
    requires WithinQuota(t, cfg.quota) && Valid(t)
    ensures var r := Push(cfg, buckets, t, body, clock, wall, fault);
            WithinQuota(r.table, cfg.quota) && (r.outcome.Accepted? ==> t.high < MAX_ID)
  {
    if |body| >= 32 {
      PutWithinQuota(t, body[..32], body[32..], Unix(wall + cfg.ttl), cfg.quota, fault);
    }
  }

  lemma PushStreams(cfg: Config, s: State, pid: nat, plain: Bytes, clock: L.Clock, wall: int, fault: bool)
    requires StreamsOk(cfg, s)
    ensures StreamsOk(cfg, PushStep(cfg, s, pid, plain, clock, wall, fault))
  {
    match Parse(plain)
    case Parsed(t, body) => if pid !in s.pushes && t == PUSH { AcceptStreams(cfg, s, pid, body, clock, wall, fault); }
    case Panic => RestartedStreams(cfg, s);
    case Bad =>
  }

  lemma ProgressStreams(cfg: Config, s: State, pid: nat, p: Progress)
    requires StreamsOk(cfg, s) && pid in s.pushes && HasRow(s.pushes[pid])
    requires HasRow(p) && p.row == s.pushes[pid].row
    ensures StreamsOk(cfg, s.(pushes := s.pushes[pid := p]))
  {
  }

  lemma BeginStreams(cfg: Config, s: State, pid: nat)
    requires StreamsOk(cfg, s)
    ensures StreamsOk(cfg, BeginStep(s, pid))
  {
    if BeginStep(s, pid) != s {
      ProgressStreams(cfg, s, pid, BeginStep(s, pid).pushes[pid]);
    }
  }

  lemma ReadStreams(cfg: Config, s: State, pid: nat)
    requires StreamsOk(cfg, s)
    ensures StreamsOk(cfg, ReadStep(s, pid))
  {
    if pid in s.pushes && s.pushes[pid].Fanning? && s.pushes[pid].scan.hand.None? {
      ReadMoves(s, pid);
      ProgressStreams(cfg, s, pid, ReadStep(s, pid).pushes[pid]);
    }
  }

  lemma ReadMoves(s: State, pid: nat)
    requires pid in s.pushes && s.pushes[pid].Fanning? && s.pushes[pid].scan.hand.None?
    ensures var s' := ReadStep(s, pid);
            && pid in s'.pushes && s' == s.(pushes := s.pushes[pid := s'.pushes[pid]])
            && HasRow(s'.pushes[pid]) && s'.pushes[pid].row == s.pushes[pid].row
  {
  }

  lemma SentOnStreams(cfg: Config, s: State, pid: nat)
    requires cfg.Ok() && StreamsOk(cfg, s) && Holds(s, pid)
    ensures StreamsOk(cfg, SentOn(cfg, s, pid))
  {
    var p := s.pushes[pid];
    AtStreams(cfg, s, p.scan.hand.value, Signal);
    ProgressStreams(cfg, AtStep(cfg, s, p.scan.hand.value, Signal), pid, p.(scan := p.scan.(hand := None)));
  }

  lemma SendStreams(cfg: Config, s: State, pid: nat)
    requires cfg.Ok() && StreamsOk(cfg, s)
    ensures StreamsOk(cfg, SendStep(cfg, s, pid))
  {
    RestartedStreams(cfg, s);
    if Holds(s, pid) {
      SentOnStreams(cfg, s, pid);
    }
  }

  lemma AckStreams(cfg: Config, s: State, pid: nat)
    requires StreamsOk(cfg, s)
    ensures StreamsOk(cfg, AckStep(s, pid))
  {
    if AckStep(s, pid) != s {
      ProgressStreams(cfg, s, pid, AckStep(s, pid).pushes[pid]);
    }
  }

  lemma TeardownStreams(cfg: Config, s: State, sid: nat)
    requires StreamsOk(cfg, s)
    ensures StreamsOk(cfg, TeardownStep(cfg, s, sid))
  {
    if TeardownStep(cfg, s, sid) != s {
      LeaveStreams(cfg, s, sid);
    }
  }

  lemma SessionsStreams(cfg: Config, s: State, ev: Event)
    requires cfg.Ok() && StreamsOk(cfg, s) && SessionEvent(ev)
    ensures StreamsOk(cfg, Step(cfg, s, ev))
  {
    match ev
    case At(sid, e) => AtStreams(cfg, s, sid, e);
    case Connect(sid, k) => ConnectStreams(cfg, s, sid, k);
    case Subscribe(sid, ok, spare) => SubscribeStreams(cfg, s, sid, ok, spare);
    case Unsubscribe(sid) => UnsubscribeStreams(cfg, s, sid);
    case CloseChannel(sid) => CloseStreams(cfg, s, sid);
    case Teardown(sid) => TeardownStreams(cfg, s, sid);
    case _ =>
  }

  lemma FanOutsStreams(cfg: Config, s: State, ev: Event)
    requires cfg.Ok() && StreamsOk(cfg, s) && FanOutEvent(ev)
    ensures StreamsOk(cfg, Step(cfg, s, ev))
  {
    match ev
    case BeginNotify(pid) => BeginStreams(cfg, s, pid);
    case NotifyRead(pid) => ReadStreams(cfg, s, pid);
    case NotifySend(pid) => SendStreams(cfg, s, pid);
    case AckPush(pid) => AckStreams(cfg, s, pid);
    case _ =>
  }

  lemma ReapStreams(cfg: Config, s: State, wall: int)
    requires cfg.Ok() && StreamsOk(cfg, s)
    ensures StreamsOk(cfg, s.(table := Reap(s.table, wall)))
  {
    KeepStreams(cfg, s, (r: Row) => !(r.expiresAt <= Unix(wall)));
  }

  lemma FramesStreams(cfg: Config, s: State, ev: Event)
    requires cfg.Ok() && StreamsOk(cfg, s) && FrameEvent(ev)
    ensures StreamsOk(cfg, Step(cfg, s, ev))
  {
    match ev
    case Inbound(sid, plain, fault) => InboundStreams(cfg, s, sid, plain, fault);
    case PushFrame(pid, plain, clock, wall, fault) => PushStreams(cfg, s, pid, plain, clock, wall, fault);
    case ReapNow(wall) => ReapStreams(cfg, s, wall);
    case Crash => RestartedStreams(cfg, s);
    case _ =>
  }

  /** Rows are as their pushes left them and within quota; every session's stream is
      ordered, complete up to its mark, and made of accepted pushes only. */
  lemma StepStreams(cfg: Config, s: State, ev: Event)
    requires cfg.Ok() && StreamsOk(cfg, s)
    ensures StreamsOk(cfg, Step(cfg, s, ev))
  {
    if SessionEvent(ev) {
      SessionsStreams(cfg, s, ev);
    } else if FanOutEvent(ev) {
      FanOutsStreams(cfg, s, ev);
    } else {
      FramesStreams(cfg, s, ev);
    }
  }

  // ---------------------------------------------------------------- session slots

  /** The sessions of k between their acquire and their release. */
  function Holders(sessions: map<nat, Session>, k: Key): set<nat> {
    set sid | sid in sessions && sessions[sid].key == k && !sessions[sid].pc.Done?
  }

  ghost predicate SlotsOk(cfg: Config, s: State) {
    cfg.sessionMax > 0 ==>
      forall k :: C.Slots(s.active, k) == |Holders(s.sessions, k)| <= cfg.sessionMax
  }

  lemma SameHolders(s: State, sid: nat, ss': Session, k: Key)
    requires sid in s.sessions && ss'.key == s.sessions[sid].key && (ss'.pc.Done? <==> s.sessions[sid].pc.Done?)
    ensures Holders(s.sessions[sid := ss'], k) == Holders(s.sessions, k)
  {
  }

  lemma AtSlots(cfg: Config, s: State, sid: nat, e: LocalEvent)
    requires SlotsOk(cfg, s)
    ensures SlotsOk(cfg, AtStep(cfg, s, sid, e))
  {
    if sid in s.sessions {
      forall k ensures Holders(AtStep(cfg, s, sid, e).sessions, k) == Holders(s.sessions, k) {
        SameHolders(s, sid, Local(cfg.cipher, s.table, s.sessions[sid], e), k);
      }
    }
  }

  lemma ConnectSlots(cfg: Config, s: State, sid: nat, k: Key)
    requires SlotsOk(cfg, s)
    ensures SlotsOk(cfg, ConnectStep(cfg, s, sid, k))
  {
    var s' := ConnectStep(cfg, s, sid, k);
    if s' != s && cfg.sessionMax > 0 {
      forall l ensures C.Slots(s'.active, l) == |Holders(s'.sessions, l)| <= cfg.sessionMax {
        assert C.Slots(s.active, l) == |Holders(s.sessions, l)| <= cfg.sessionMax;
        NewHolder(s, sid, k, l);
      }
    }
  }

  lemma NewHolder(s: State, sid: nat, k: Key, l: Key)
    requires sid !in s.sessions
    ensures |Holders(s.sessions[sid := NewSession(k)], l)| == |Holders(s.sessions, l)| + (if l == k then 1 else 0)
  {
    assert Holders(s.sessions[sid := NewSession(k)], l) == Holders(s.sessions, l) + (if l == k then {sid} else {});
  }

  lemma LeaveSlots(cfg: Config, s: State, sid: nat)
    requires SlotsOk(cfg, s) && sid in s.sessions && !s.sessions[sid].pc.Done?
    ensures SlotsOk(cfg, Leave(cfg, s, sid))
  {
    var s', k := Leave(cfg, s, sid), s.sessions[sid].key;
    if cfg.sessionMax > 0 {
      assert sid in Holders(s.sessions, k);
      forall l ensures C.Slots(s'.active, l) == |Holders(s'.sessions, l)| <= cfg.sessionMax {
        assert C.Slots(s.active, l) == |Holders(s.sessions, l)| <= cfg.sessionMax;
        assert Holders(s'.sessions, l) == Holders(s.sessions, l) - (if l == k then {sid} else {});
      }
    }
  }

  lemma WithListsSlots(cfg: Config, s: State, lists: N.Lists)
    requires SlotsOk(cfg, s)
    ensures SlotsOk(cfg, WithLists(s, lists))
  {
    forall k ensures Holders(WithLists(s, lists).sessions, k) == Holders(s.sessions, k) {
    }
  }

  /** A session that changes without giving up its slot. */
  lemma KeptSlots(cfg: Config, s: State, sid: nat, ss': Session)
    requires SlotsOk(cfg, s) && sid in s.sessions && ss'.key == s.sessions[sid].key
    requires ss'.pc.Done? <==> s.sessions[sid].pc.Done?
    ensures SlotsOk(cfg, s.(sessions := s.sessions[sid := ss']))
  {
    forall k ensures Holders(s.sessions[sid := ss'], k) == Holders(s.sessions, k) {
      SameHolders(s, sid, ss', k);
    }
  }

  lemma SubscribeSlots(cfg: Config, s: State, sid: nat, ok: bool, spare: nat)
    requires SlotsOk(cfg, s)
    ensures SlotsOk(cfg, SubscribeStep(cfg, s, sid, ok, spare))
  {
    if sid in s.sessions && s.sessions[sid].pc.Acquired? {
      if ok {
        var ss := s.sessions[sid].(pc := FirstPeek, stage := Listening);
        KeptSlots(cfg, s, sid, ss);
        WithListsSlots(cfg, s.(sessions := s.sessions[sid := ss]), N.Subscribed(s.lists, ss.key, sid, spare));
      } else {
        LeaveSlots(cfg, s, sid);
      }
    }
  }

  lemma UnsubscribeSlots(cfg: Config, s: State, sid: nat)
    requires SlotsOk(cfg, s)
    ensures SlotsOk(cfg, UnsubscribeStep(s, sid))
  {
    if UnsubscribeStep(s, sid) != s {
      var ss := s.sessions[sid].(stage := Removed);
      KeptSlots(cfg, s, sid, ss);
      WithListsSlots(cfg, s.(sessions := s.sessions[sid := ss]), N.Unsubscribed(s.lists, ss.key, sid));
    }
  }

  lemma CloseSlots(cfg: Config, s: State, sid: nat)
    requires SlotsOk(cfg, s)
    ensures SlotsOk(cfg, CloseStep(s, sid))
  {
    if CloseStep(s, sid) != s {
      KeptSlots(cfg, s, sid, s.sessions[sid].(stage := Closed));
    }
  }

  lemma InboundSlots(cfg: Config, s: State, sid: nat, plain: Bytes, fault: bool)
    requires SlotsOk(cfg, s)
    ensures SlotsOk(cfg, InboundStep(cfg, s, sid, plain, fault))
  {
    if sid in s.sessions {
      SayIsOutput(cfg, s, sid, W.Complain);
      SayIsOutput(cfg, s, sid, W.Echo);
    }
    AtSlots(cfg, s, sid, Output(W.Complain));
    AtSlots(cfg, s, sid, Output(W.Echo));
    RestartedSlots(cfg, s);
  }

  lemma SendSlots(cfg: Config, s: State, pid: nat)
    requires SlotsOk(cfg, s)
    ensures SlotsOk(cfg, SendStep(cfg, s, pid))
  {
    RestartedSlots(cfg, s);
    if Holds(s, pid) {
      AtSlots(cfg, s, s.pushes[pid].scan.hand.value, Signal);
    }
  }

  /** The steps of a fan-out that send nothing leave the sessions alone. */
  lemma QuietSlots(cfg: Config, s: State, pid: nat)
    ensures BeginStep(s, pid) == s.(pushes := BeginStep(s, pid).pushes)
    ensures ReadStep(s, pid) == s.(pushes := ReadStep(s, pid).pushes)
    ensures AckStep(s, pid) == s.(pushes := AckStep(s, pid).pushes)
  {
  }

  lemma PushKeepsSessions(cfg: Config, s: State, pid: nat, plain: Bytes, clock: L.Clock, wall: int, fault: bool)
    ensures var s' := PushStep(cfg, s, pid, plain, clock, wall, fault);
            s' == Restarted(s) || (s'.active == s.active && s'.sessions == s.sessions)
  {
    match Parse(plain)
    case Parsed(t, body) => AfterPushKeeps(s, pid, body, Push(cfg, s.buckets, s.table, body, clock, wall, fault));
    case Bad =>
    case Panic =>
  }

  lemma AfterPushKeeps(s: State, pid: nat, body: Bytes, r: PushResult)
    ensures AfterPush(s, pid, body, r).active == s.active && AfterPush(s, pid, body, r).sessions == s.sessions
  {
  }

  lemma PushSlots(cfg: Config, s: State, pid: nat, plain: Bytes, clock: L.Clock, wall: int, fault: bool)
    requires SlotsOk(cfg, s)
    ensures SlotsOk(cfg, PushStep(cfg, s, pid, plain, clock, wall, fault))
  {
    PushKeepsSessions(cfg, s, pid, plain, clock, wall, fault);
    RestartedSlots(cfg, s);
  }

  lemma TeardownSlots(cfg: Config, s: State, sid: nat)
    requires SlotsOk(cfg, s)
    ensures SlotsOk(cfg, TeardownStep(cfg, s, sid))
  {
    if TeardownStep(cfg, s, sid) != s {
      LeaveSlots(cfg, s, sid);
    }
  }

  /** The count of every Device is the number of its sessions that hold a slot, and never
      exceeds the cap. */
  lemma StepSlots(cfg: Config, s: State, ev: Event)
    requires SlotsOk(cfg, s)
    ensures SlotsOk(cfg, Step(cfg, s, ev))
  {
    match ev
    case At(sid, e) => AtSlots(cfg, s, sid, e);
    case Connect(sid, k) => ConnectSlots(cfg, s, sid, k);
    case Subscribe(sid, ok, spare) => SubscribeSlots(cfg, s, sid, ok, spare);
    case Unsubscribe(sid) => UnsubscribeSlots(cfg, s, sid);
    case CloseChannel(sid) => CloseSlots(cfg, s, sid);
    case Teardown(sid) => TeardownSlots(cfg, s, sid);
    case Inbound(sid, plain, fault) => InboundSlots(cfg, s, sid, plain, fault);
    case PushFrame(pid, plain, clock, wall, fault) => PushSlots(cfg, s, pid, plain, clock, wall, fault);
    case BeginNotify(pid) => QuietSlots(cfg, s, pid);
    case NotifyRead(pid) => QuietSlots(cfg, s, pid);
    case NotifySend(pid) => SendSlots(cfg, s, pid);
    case AckPush(pid) => QuietSlots(cfg, s, pid);
    case ReapNow(_) =>
    case Crash => RestartedSlots(cfg, s);
  }

  lemma RestartedSlots(cfg: Config, s: State)
    ensures SlotsOk(cfg, Restarted(s))
  {
    assert forall k :: Holders(map[], k) == {};
  }
}
