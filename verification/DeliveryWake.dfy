/** No wake-up is lost silently, and the invariant of all runs. */
module DeliveryWake {
  import opened Base
  import opened Inbox
  import opened FrameCodec
  import opened Router
  import opened Delivery
  import opened DeliverySessions
  import opened DeliveryInvariants
  import opened DeliveryLists
  import W = SessionWriter
  import N = Notifier
  import L = Limits
  import F = FanOut

  predicate PendingIn(s: State, sid: nat)
    requires sid in s.sessions
  {
    Pending(s.lists.heap, s.pushes, sid, s.sessions[sid].key)
  }

  /** A live session has looked at every row of its Inbox, or something will make it look again:
      its first peek, a consumed or waiting signal, or a push that has not finished notifying.
      A wake-up on record as lost is the one exception. */
  ghost predicate WakeOk(t: Table, ss: Session, pending: bool) {
    Live(ss) ==> ss.behind || ss.pc.FirstPeek? || ss.pc.Woken? || ss.signal || pending || AllSeen(t, ss)
  }

  ghost predicate AllWake(s: State) {
    forall sid :: sid in s.sessions ==> WakeOk(s.table, s.sessions[sid], PendingIn(s, sid))
  }

  // ---------------------------------------------------------------- one session's own steps

  /** Events outside deliverNew leave the stream where it is. */
  lemma KnownStays(c: W.Cipher, t: Table, ss: Session, e: LocalEvent)
    requires !e.Peek? && !e.SendOne? && !e.Abandon?
    ensures var ss' := Local(c, t, ss, e); Known(ss') == Known(ss) && ss'.key == ss.key && ss'.behind == ss.behind
  {
  }

  lemma LocalWake(cfg: Config, t: Table, accepted: map<int, Bytes>, ss: Session, pending: bool, e: LocalEvent)
    requires SessionOk(cfg, t, accepted, ss) && RowsOk(cfg, t, accepted) && WakeOk(t, ss, pending)
    ensures WakeOk(t, Local(cfg.cipher, t, ss, e), pending)
  {
    match e
    case Peek(ok) => if ok && (ss.pc.FirstPeek? || ss.pc.Woken?) { PeekOk(cfg, t, accepted, ss); }
    case SendOne => if ss.pc.Sending? { SendKnown(ss); }
    case Abandon =>
    case _ => KnownStays(cfg.cipher, t, ss, e);
  }

  lemma ReplaceWake(s: State, s': State, sid: nat)
    requires AllWake(s) && s'.table == s.table && s'.lists == s.lists && s'.pushes == s.pushes
    requires sid in s'.sessions && s'.sessions == s.sessions[sid := s'.sessions[sid]]
    requires WakeOk(s'.table, s'.sessions[sid], PendingIn(s', sid))
    ensures AllWake(s')
  {
    forall o | o in s'.sessions ensures WakeOk(s'.table, s'.sessions[o], PendingIn(s', o)) {
      assert o != sid ==> WakeOk(s.table, s.sessions[o], PendingIn(s, o));
    }
  }

  lemma AtWake(cfg: Config, s: State, sid: nat, e: LocalEvent)
    requires StreamsOk(cfg, s) && AllWake(s)
    ensures AllWake(AtStep(cfg, s, sid, e))
  {
    if sid in s.sessions {
      var ss := s.sessions[sid];
      LocalKey(cfg.cipher, s.table, ss, e);
      LocalWake(cfg, s.table, s.accepted, ss, PendingIn(s, sid), e);
      ReplaceWake(s, AtStep(cfg, s, sid, e), sid);
    }
  }

  lemma LocalKey(c: W.Cipher, t: Table, ss: Session, e: LocalEvent)
    ensures Local(c, t, ss, e).key == ss.key
  {
  }

  /** A session that is not live, or has its first peek to come, is woken. */
  lemma SettledWake(s: State, s': State, sid: nat)
    requires AllWake(s) && s'.table == s.table && s'.lists == s.lists && s'.pushes == s.pushes
    requires sid in s'.sessions && s'.sessions == s.sessions[sid := s'.sessions[sid]]
    requires !Live(s'.sessions[sid]) || s'.sessions[sid].pc.FirstPeek?
    ensures AllWake(s')
  {
    ReplaceWake(s, s', sid);
  }

  // ---------------------------------------------------------------- connecting and leaving

  lemma ConnectWake(cfg: Config, s: State, sid: nat, k: Key)
    requires AllWake(s)
    ensures AllWake(ConnectStep(cfg, s, sid, k))
  {
    if ConnectStep(cfg, s, sid, k) != s && sid in ConnectStep(cfg, s, sid, k).sessions {
      SettledWake(s, ConnectStep(cfg, s, sid, k), sid);
    }
  }

  lemma LeaveWake(cfg: Config, s: State, sid: nat)
    requires AllWake(s) && sid in s.sessions
    ensures AllWake(Leave(cfg, s, sid))
  {
    SettledWake(s, Leave(cfg, s, sid), sid);
  }

  lemma TeardownWake(cfg: Config, s: State, sid: nat)
    requires AllWake(s)
    ensures AllWake(TeardownStep(cfg, s, sid))
  {
    if TeardownStep(cfg, s, sid) != s {
      LeaveWake(cfg, s, sid);
    }
  }

  /** Whatever writing the arrays overtakes is recorded. */
  lemma WithListsWake(s: State, lists: N.Lists)
    requires AllWake(s)
    ensures AllWake(WithLists(s, lists))
  {
    var s' := WithLists(s, lists);
    forall sid | sid in s'.sessions ensures WakeOk(s'.table, s'.sessions[sid], PendingIn(s', sid)) {
      BehindStream(s.sessions[sid], s'.sessions[sid].behind);
      assert WakeOk(s.table, s.sessions[sid], PendingIn(s, sid));
    }
  }

  lemma BehindStream(ss: Session, behind: bool)
    ensures Known(ss.(behind := behind)) == Known(ss)
  {
  }

  lemma SubscribeWake(cfg: Config, s: State, sid: nat, ok: bool, spare: nat)
    requires AllWake(s)
    ensures AllWake(SubscribeStep(cfg, s, sid, ok, spare))
  {
    if sid in s.sessions && s.sessions[sid].pc.Acquired? {
      if ok {
        var ss := s.sessions[sid].(pc := FirstPeek, stage := Listening);
        var s1 := s.(sessions := s.sessions[sid := ss]);
        SettledWake(s, s1, sid);
        WithListsWake(s1, N.Subscribed(s.lists, ss.key, sid, spare));
      } else {
        LeaveWake(cfg, s, sid);
      }
    }
  }

  lemma UnsubscribeWake(s: State, sid: nat)
    requires AllWake(s)
    ensures AllWake(UnsubscribeStep(s, sid))
  {
    if sid in s.sessions && s.sessions[sid].cancelled && s.sessions[sid].stage.Listening? {
      var ss := s.sessions[sid].(stage := Removed);
      var s1 := s.(sessions := s.sessions[sid := ss]);
      SettledWake(s, s1, sid);
      WithListsWake(s1, N.Unsubscribed(s.lists, ss.key, sid));
    }
  }

  lemma CloseWake(s: State, sid: nat)
    requires AllWake(s)
    ensures AllWake(CloseStep(s, sid))
  {
    if sid in s.sessions && s.sessions[sid].stage.Removed? {
      var ss := s.sessions[sid];
      assert Known(ss.(stage := Closed)) == Known(ss);
      assert WakeOk(s.table, ss, PendingIn(s, sid));
      ReplaceWake(s, CloseStep(s, sid), sid);
    }
  }

  // ---------------------------------------------------------------- acks, reaps and pushes

  lemma KeepWake(s: State, p: Row -> bool)
    requires AllWake(s)
    ensures AllWake(s.(table := Table(Keep(p, s.table.rows), s.table.high)))
  {
    var s' := s.(table := Table(Keep(p, s.table.rows), s.table.high));
    forall sid | sid in s'.sessions ensures WakeOk(s'.table, s'.sessions[sid], PendingIn(s', sid)) {
      assert WakeOk(s.table, s.sessions[sid], PendingIn(s, sid));
    }
  }

  lemma InboundWake(cfg: Config, s: State, sid: nat, plain: Bytes, fault: bool)
    requires StreamsOk(cfg, s) && AllWake(s)
    ensures AllWake(InboundStep(cfg, s, sid, plain, fault))
  {
    if sid in s.sessions {
      SayIsOutput(cfg, s, sid, W.Complain);
      SayIsOutput(cfg, s, sid, W.Echo);
    }
    AtWake(cfg, s, sid, Output(W.Complain));
    AtWake(cfg, s, sid, Output(W.Echo));
    match Parse(plain)
    case Parsed(t, body) =>
      if sid in s.sessions && t == DELIVER_ACK && DecodeDeliverAck(body).Some? {
        var k, ids := s.sessions[sid].key, [ToI64(DecodeDeliverAck(body).value)];
        KeepWake(s, (r: Row) => !(r.recipient == k && r.id in ids));
      }
    case _ =>
  }

  /** A session keeps its pending push when that push's progress is replaced by one that
      still pends for it. */
  lemma PendingKept(heap: seq<N.Array>, pushes: map<nat, Progress>, pid: nat, p: Progress, sid: nat, k: Key)
    requires pid in pushes && PendsFor(heap, pushes[pid], sid, k) ==> PendsFor(heap, p, sid, k)
    ensures Pending(heap, pushes, sid, k) ==> Pending(heap, pushes[pid := p], sid, k)
  {
    if Pending(heap, pushes, sid, k) {
      var q :| q in pushes && PendsFor(heap, pushes[q], sid, k);
      assert q in pushes[pid := p] && PendsFor(heap, pushes[pid := p][q], sid, k);
    }
  }

  lemma AcceptWake(cfg: Config, s: State, pid: nat, body: Bytes, r: PushResult)
    requires AllWake(s) && pid !in s.pushes
    requires r.outcome.Accepted? ==> r.table == Table(s.table.rows + [r.outcome.row], s.table.high + 1)
    ensures AllWake(AfterPush(s, pid, body, r))
  {
    var s' := AfterPush(s, pid, body, r);
    forall sid | sid in s.sessions ensures WakeOk(s'.table, s.sessions[sid], PendingIn(s', sid)) {
      var k := s.sessions[sid].key;
      PendingKept(s.lists.heap, s.pushes, pid, s'.pushes[pid], sid, k);
      assert WakeOk(s.table, s.sessions[sid], PendingIn(s, sid));
      if r.outcome.Accepted? && r.outcome.row.recipient == k {
        assert PendsFor(s.lists.heap, s'.pushes[pid], sid, k);
      }
    }
  }

  lemma PushWake(cfg: Config, s: State, pid: nat, plain: Bytes, clock: L.Clock, wall: int, fault: bool)
    requires AllWake(s)
    ensures AllWake(PushStep(cfg, s, pid, plain, clock, wall, fault))
  {
    if pid !in s.pushes {
      ProgressWake(s, s.(pushes := s.pushes[pid := Declined(REASON_MALFORMED)]), pid, Declined(REASON_MALFORMED));
      match Parse(plain)
      case Parsed(t, body) =>
        AcceptedMatches(cfg, s.buckets, s.table, body, clock, wall, fault);
        AcceptWake(cfg, s, pid, body, Push(cfg, s.buckets, s.table, body, clock, wall, fault));
      case _ =>
    }
  }

  // ---------------------------------------------------------------- the fan-out's steps

  /** Progress that gives up no session it still owes a signal. */
  lemma ProgressWake(s: State, s': State, pid: nat, p: Progress)
    requires AllWake(s) && s' == s.(pushes := s.pushes[pid := p])
    requires forall sid :: pid in s.pushes && sid in s.sessions && Live(s.sessions[sid])
                           && PendsFor(s.lists.heap, s.pushes[pid], sid, s.sessions[sid].key)
                           ==> s.sessions[sid].signal || PendsFor(s.lists.heap, p, sid, s.sessions[sid].key)
    ensures AllWake(s')
  {
    forall sid | sid in s.sessions ensures WakeOk(s.table, s.sessions[sid], PendingIn(s', sid)) {
      assert WakeOk(s.table, s.sessions[sid], PendingIn(s, sid));
      if Live(s.sessions[sid]) && !s.sessions[sid].signal {
        PendingKept(s.lists.heap, s.pushes, pid, p, sid, s.sessions[sid].key);
      }
    }
  }

  /** The header covers every live session of the key. */
  lemma HeaderCovers(s: State, pid: nat, sid: nat)
    requires ListsOk(s) && pid in s.pushes && s.pushes[pid].Committed?
    requires sid in s.sessions && Live(s.sessions[sid]) && s.sessions[sid].key == s.pushes[pid].row.recipient
    ensures PendsFor(s.lists.heap, BeginStep(s, pid).pushes[pid], sid, s.sessions[sid].key)
  {
    var k := s.sessions[sid].key;
    assert Placed(s.sessions[sid]);
    var j :| 0 <= j < |N.Listed(s.lists, k)| && N.Listed(s.lists, k)[j] == sid;
    var slots := SlotsAt(s.lists.heap, s.lists.subs[k].arr);
    assert slots[j] == sid;
    assert F.InSlots(slots, F.Scan(s.lists.subs[k].len, 0, None), sid);
  }

  lemma BeginWake(s: State, pid: nat)
    requires ListsOk(s) && AllWake(s)
    ensures AllWake(BeginStep(s, pid))
  {
    if pid in s.pushes && s.pushes[pid].Committed? {
      var p := BeginStep(s, pid).pushes[pid];
      forall sid | sid in s.sessions && Live(s.sessions[sid])
                   && PendsFor(s.lists.heap, s.pushes[pid], sid, s.sessions[sid].key)
        ensures PendsFor(s.lists.heap, p, sid, s.sessions[sid].key)
      {
        HeaderCovers(s, pid, sid);
      }
      ProgressWake(s, BeginStep(s, pid), pid, p);
    }
  }

  /** Reading a slot moves its channel to the hand; past the last slot nothing is left. */
  lemma ReadKeeps(heap: seq<N.Array>, s: State, pid: nat, sid: nat, k: Key)
    requires heap == s.lists.heap && pid in s.pushes && s.pushes[pid].Fanning? && s.pushes[pid].scan.hand.None?
    ensures PendsFor(heap, s.pushes[pid], sid, k) <==> PendsFor(heap, ReadStep(s, pid).pushes[pid], sid, k)
  {
    var p, q := s.pushes[pid], ReadStep(s, pid).pushes[pid];
    var slots, c := SlotsAt(heap, p.arr), p.scan.cursor;
    if q.Fanning? {
      assert F.InSlots(slots, p.scan, sid) <==> slots[c] == sid || F.InSlots(slots, q.scan, sid);
    } else {
      assert !F.InSlots(slots, p.scan, sid);
    }
  }

  lemma ReadWake(s: State, pid: nat)
    requires AllWake(s)
    ensures AllWake(ReadStep(s, pid))
  {
    if pid in s.pushes && s.pushes[pid].Fanning? && s.pushes[pid].scan.hand.None? {
      var p := ReadStep(s, pid).pushes[pid];
      forall sid | sid in s.sessions && PendsFor(s.lists.heap, s.pushes[pid], sid, s.sessions[sid].key)
        ensures PendsFor(s.lists.heap, p, sid, s.sessions[sid].key)
      {
        ReadKeeps(s.lists.heap, s, pid, sid, s.sessions[sid].key);
      }
      ProgressWake(s, ReadStep(s, pid), pid, p);
    }
  }

  /** Sending gives up only the session that now has its signal. */
  lemma SendKeeps(heap: seq<N.Array>, p: Progress, sid: nat, k: Key)
    requires p.Fanning? && p.scan.hand.Some? && PendsFor(heap, p, sid, k)
    ensures p.scan.hand == Some(sid) || PendsFor(heap, p.(scan := p.scan.(hand := None)), sid, k)
  {
    var q := p.(scan := p.scan.(hand := None));
    assert F.InSlots(SlotsAt(heap, p.arr), p.scan, sid) ==> F.InSlots(SlotsAt(heap, p.arr), q.scan, sid);
  }

  lemma SentWake(s: State, pid: nat, q: Progress)
    requires AllWake(s) && pid in s.pushes && s.pushes[pid].Fanning? && s.pushes[pid].scan.hand.Some?
    requires var p := s.pushes[pid];
             && q == p.(scan := p.scan.(hand := None))
             && (p.scan.hand.value in s.sessions ==> s.sessions[p.scan.hand.value].signal)
    ensures AllWake(s.(pushes := s.pushes[pid := q]))
  {
    forall sid | sid in s.sessions && PendsFor(s.lists.heap, s.pushes[pid], sid, s.sessions[sid].key)
      ensures s.sessions[sid].signal || PendsFor(s.lists.heap, q, sid, s.sessions[sid].key)
    {
      SendKeeps(s.lists.heap, s.pushes[pid], sid, s.sessions[sid].key);
    }
    ProgressWake(s, s.(pushes := s.pushes[pid := q]), pid, q);
  }

  lemma SignalSets(cfg: Config, s: State, ch: nat)
    ensures var s1 := AtStep(cfg, s, ch, Signal);
            s1.pushes == s.pushes && (ch in s1.sessions ==> s1.sessions[ch].signal)
  {
  }

  lemma SentOnWake(cfg: Config, s: State, pid: nat)
    requires cfg.Ok() && StreamsOk(cfg, s) && AllWake(s) && Holds(s, pid)
    ensures AllWake(SentOn(cfg, s, pid))
  {
    var p := s.pushes[pid];
    AtWake(cfg, s, p.scan.hand.value, Signal);
    SignalSets(cfg, s, p.scan.hand.value);
    SentWake(AtStep(cfg, s, p.scan.hand.value, Signal), pid, p.(scan := p.scan.(hand := None)));
  }

  lemma SendWake(cfg: Config, s: State, pid: nat)
    requires cfg.Ok() && StreamsOk(cfg, s) && AllWake(s)
    ensures AllWake(SendStep(cfg, s, pid))
  {
    if Holds(s, pid) {
      SentOnWake(cfg, s, pid);
    }
  }

  lemma AckWake(s: State, pid: nat)
    requires AllWake(s)
    ensures AllWake(AckStep(s, pid))
  {
    if pid in s.pushes && s.pushes[pid].Notified? {
      ProgressWake(s, AckStep(s, pid), pid, AckStep(s, pid).pushes[pid]);
    }
  }

  // ---------------------------------------------------------------- every step and all runs

  lemma SessionsWake(cfg: Config, s: State, ev: Event)
    requires cfg.Ok() && StreamsOk(cfg, s) && ListsOk(s) && AllWake(s) && SessionEvent(ev)
    ensures AllWake(Step(cfg, s, ev))
  {
    match ev
    case At(sid, e) => AtWake(cfg, s, sid, e);
    case Connect(sid, k) => ConnectWake(cfg, s, sid, k);
    case Subscribe(sid, ok, spare) => SubscribeWake(cfg, s, sid, ok, spare);
    case Unsubscribe(sid) => UnsubscribeWake(s, sid);
    case CloseChannel(sid) => CloseWake(s, sid);
    case Teardown(sid) => TeardownWake(cfg, s, sid);
    case _ =>
  }

  lemma FanOutsWake(cfg: Config, s: State, ev: Event)
    requires cfg.Ok() && StreamsOk(cfg, s) && ListsOk(s) && AllWake(s) && FanOutEvent(ev)
    ensures AllWake(Step(cfg, s, ev))
  {
    match ev
    case BeginNotify(pid) => BeginWake(s, pid);
    case NotifyRead(pid) => ReadWake(s, pid);
    case NotifySend(pid) => SendWake(cfg, s, pid);
    case AckPush(pid) => AckWake(s, pid);
    case _ =>
  }

  lemma FramesWake(cfg: Config, s: State, ev: Event)
    requires cfg.Ok() && StreamsOk(cfg, s) && ListsOk(s) && AllWake(s) && FrameEvent(ev)
    ensures AllWake(Step(cfg, s, ev))
  {
    match ev
    case Inbound(sid, plain, fault) => InboundWake(cfg, s, sid, plain, fault);
    case PushFrame(pid, plain, clock, wall, fault) => PushWake(cfg, s, pid, plain, clock, wall, fault);
    case ReapNow(wall) => KeepWake(s, (r: Row) => !(r.expiresAt <= Unix(wall)));
    case Crash =>
    case _ =>
  }

  /** No step loses a wake-up without its being on record. */
  lemma StepWake(cfg: Config, s: State, ev: Event)
    requires cfg.Ok() && StreamsOk(cfg, s) && ListsOk(s) && AllWake(s)
    ensures AllWake(Step(cfg, s, ev))
  {
    if SessionEvent(ev) {
      SessionsWake(cfg, s, ev);
    } else if FanOutEvent(ev) {
      FanOutsWake(cfg, s, ev);
    } else {
      FramesWake(cfg, s, ev);
    }
  }

  ghost predicate Inv(cfg: Config, s: State) {
    StreamsOk(cfg, s) && ListsOk(s) && AllWake(s) && SlotsOk(cfg, s)
  }

  lemma InitInv(cfg: Config)
    ensures Inv(cfg, Init)
  {
    assert forall k :: Holders(map[], k) == {};
  }

  lemma StepInv(cfg: Config, s: State, ev: Event)
    requires cfg.Ok() && Inv(cfg, s)
    ensures Inv(cfg, Step(cfg, s, ev))
  {
    StepStreams(cfg, s, ev);
    StepLists(cfg, s, ev);
    StepWake(cfg, s, ev);
    StepSlots(cfg, s, ev);
  }

  /** The invariant holds after every run. */
  lemma {:induction false} RunInv(cfg: Config, s: State, evs: seq<Event>)
    requires cfg.Ok() && Inv(cfg, s)
    ensures Inv(cfg, Run(cfg, s, evs))
  {
    if evs != [] {
      RunInv(cfg, s, evs[..|evs| - 1]);
      StepInv(cfg, Run(cfg, s, evs[..|evs| - 1]), evs[|evs| - 1]);
    }
  }
}
