/**
  Runs in which no wake-up is lost: no peek of the key's sessions fails, and no channel is taken
  out of the key's list while a fan-out over it is in progress.  Subscriptions may fall into
  fan-outs, and anything may happen to other keys.
 */
module DeliveryCalm {
  import opened Base
  import opened FrameCodec
  import opened Inbox
  import opened Router
  import opened Delivery
  import opened DeliveryLists
  import opened DeliveryWake
  import opened DeliveryTheorems
  import opened DeliveryProgress
  import opened DeliveryReach
  import opened DeliveryBehind
  import W = SessionWriter
  import N = Notifier
  import F = FanOut

  ghost predicate FanOutInProgress(s: State, k: Key) {
    exists p :: p in s.pushes && s.pushes[p].Fanning? && s.pushes[p].row.recipient == k
  }

  ghost predicate CalmEvent(s: State, ev: Event, k: Key) {
    match ev
    case At(sid, e) => sid in s.sessions && s.sessions[sid].key == k ==> e != Peek(false)
    case Unsubscribe(sid) => sid in s.sessions && s.sessions[sid].key == k ==> !FanOutInProgress(s, k)
    case _ => true
  }

  ghost predicate CalmRun(cfg: Config, evs: seq<Event>, k: Key) {
    forall i :: 0 <= i < |evs| ==> CalmEvent(Run(cfg, Init, evs[..i]), evs[i], k)
  }

  // ---------------------------------------------------------------- what a calm run keeps

  predicate ListeningAt(sessions: map<nat, Session>, ch: nat) {
    ch in sessions && sessions[ch].stage.Listening?
  }

  /** A fan-out's slots lie within its key's list, if that has not moved, and every channel it
      has before it is listening. */
  ghost predicate CalmScan(lists: N.Lists, sessions: map<nat, Session>, p: Progress)
    requires p.Fanning?
  {
    var k := p.row.recipient;
    && (k in lists.subs && lists.subs[k].arr == p.arr ==> p.scan.limit <= lists.subs[k].len)
    && (forall ch: nat :: F.Ahead(SlotsAt(lists.heap, p.arr), p.scan, ch) ==> ListeningAt(sessions, ch))
  }

  ghost predicate CalmScans(s: State, k: Key) {
    forall p :: p in s.pushes && s.pushes[p].Fanning? && s.pushes[p].row.recipient == k
      ==> CalmScan(s.lists, s.sessions, s.pushes[p])
  }

  ghost predicate NoneBehind(s: State, k: Key) {
    forall sid :: sid in s.sessions && s.sessions[sid].key == k ==> !s.sessions[sid].behind
  }

  ghost predicate CalmOk(s: State, k: Key) {
    CalmScans(s, k) && NoneBehind(s, k)
  }

  /** The lists stay, old sessions keep their stages, and no fan-out has more before it. */
  lemma SameCalm(s: State, s': State, k: Key)
    requires CalmOk(s, k) && s'.lists == s.lists && NoneBehind(s', k)
    requires forall ch :: ListeningAt(s.sessions, ch) ==> ListeningAt(s'.sessions, ch)
    requires forall p :: p in s'.pushes && s'.pushes[p].Fanning? && s'.pushes[p].row.recipient == k ==>
                           CalmScan(s.lists, s.sessions, s'.pushes[p])
    ensures CalmOk(s', k)
  {
    forall p | p in s'.pushes && s'.pushes[p].Fanning? && s'.pushes[p].row.recipient == k
      ensures CalmScan(s'.lists, s'.sessions, s'.pushes[p])
    {
      assert CalmScan(s.lists, s.sessions, s'.pushes[p]);
    }
  }

  lemma LocalCalm(c: W.Cipher, t: Table, ss: Session, e: LocalEvent)
    requires e != Peek(false) && !ss.behind
    ensures !Local(c, t, ss, e).behind
  {
  }

  lemma LocalStage(c: W.Cipher, t: Table, ss: Session, e: LocalEvent)
    ensures SameStage(ss, Local(c, t, ss, e))
  {
  }

  lemma AtCalm(cfg: Config, s: State, sid: nat, e: LocalEvent, k: Key)
    requires CalmOk(s, k) && (sid in s.sessions && s.sessions[sid].key == k ==> e != Peek(false))
    ensures CalmOk(AtStep(cfg, s, sid, e), k)
  {
    if sid in s.sessions {
      LocalStage(cfg.cipher, s.table, s.sessions[sid], e);
      if s.sessions[sid].key == k {
        LocalCalm(cfg.cipher, s.table, s.sessions[sid], e);
      }
      SameCalm(s, AtStep(cfg, s, sid, e), k);
    }
  }

  lemma ConnectCalm(cfg: Config, s: State, sid: nat, l: Key, k: Key)
    requires CalmOk(s, k)
    ensures CalmOk(ConnectStep(cfg, s, sid, l), k)
  {
    SameCalm(s, ConnectStep(cfg, s, sid, l), k);
  }

  lemma LeaveCalm(cfg: Config, s: State, sid: nat, k: Key)
    requires CalmOk(s, k) && sid in s.sessions
    ensures CalmOk(Leave(cfg, s, sid), k)
  {
    SameCalm(s, Leave(cfg, s, sid), k);
  }

  lemma TeardownCalm(cfg: Config, s: State, sid: nat, k: Key)
    requires CalmOk(s, k)
    ensures CalmOk(TeardownStep(cfg, s, sid), k)
  {
    if TeardownStep(cfg, s, sid) != s {
      LeaveCalm(cfg, s, sid, k);
    }
  }

  lemma CloseCalm(s: State, sid: nat, k: Key)
    requires CalmOk(s, k)
    ensures CalmOk(CloseStep(s, sid), k)
  {
    if CloseStep(s, sid) != s {
      SameCalm(s, CloseStep(s, sid), k);
    }
  }

  lemma InboundCalm(cfg: Config, s: State, sid: nat, plain: Bytes, fault: bool, k: Key)
    requires CalmOk(s, k)
    ensures CalmOk(InboundStep(cfg, s, sid, plain, fault), k)
  {
    InboundShape(cfg, s, sid, plain, fault);
    var s' := InboundStep(cfg, s, sid, plain, fault);
    if s' != Restarted(s) {
      SameCalm(s, s', k);
    }
  }

  lemma PushCalm(cfg: Config, s: State, ev: Event, k: Key)
    requires CalmOk(s, k) && ev.PushFrame?
    ensures CalmOk(PushStep(cfg, s, ev.pid, ev.plain, ev.clock, ev.wall, ev.fault), k)
  {
    if ev.pid !in s.pushes {
      QuietCalm(s, s.(pushes := s.pushes[ev.pid := Declined(REASON_MALFORMED)]), ev.pid, k);
      match Parse(ev.plain)
      case Parsed(t, body) =>
        AfterPushCalm(s, ev.pid, body, Push(cfg, s.buckets, s.table, body, ev.clock, ev.wall, ev.fault), k);
      case _ =>
    }
  }

  /** One push changes, to something that is not a fan-out. */
  lemma QuietCalm(s: State, s': State, pid: nat, k: Key)
    requires CalmOk(s, k) && s'.lists == s.lists && s'.sessions == s.sessions
    requires pid in s'.pushes && !s'.pushes[pid].Fanning? && s'.pushes == s.pushes[pid := s'.pushes[pid]]
    ensures CalmOk(s', k)
  {
    SameCalm(s, s', k);
  }

  lemma AfterPushCalm(s: State, pid: nat, body: Bytes, r: PushResult, k: Key)
    requires CalmOk(s, k)
    ensures CalmOk(AfterPush(s, pid, body, r), k)
  {
    QuietCalm(s, AfterPush(s, pid, body, r), pid, k);
  }

  // ---------------------------------------------------------------- the fan-out's steps

  lemma BeginCalm(s: State, pid: nat, k: Key)
    requires ListsOk(s) && CalmOk(s, k)
    ensures CalmOk(BeginStep(s, pid), k)
  {
    if pid in s.pushes && s.pushes[pid].Committed? {
      var p := BeginStep(s, pid).pushes[pid];
      if p.row.recipient == k {
        HeaderListening(s, p);
      }
      SameCalm(s, BeginStep(s, pid), k);
    }
  }

  /** A header just taken has only listening channels before it. */
  lemma HeaderListening(s: State, p: Progress)
    requires ListsOk(s) && p.Fanning? && p.scan.cursor == 0 && p.scan.hand == None
    requires var k := p.row.recipient;
             if k in s.lists.subs then p.arr == s.lists.subs[k].arr && p.scan.limit == s.lists.subs[k].len
             else p.scan.limit == 0
    ensures CalmScan(s.lists, s.sessions, p)
  {
    var k, slots := p.row.recipient, SlotsAt(s.lists.heap, p.arr);
    forall ch: nat | F.Ahead(slots, p.scan, ch) ensures ListeningAt(s.sessions, ch) {
      var j :| p.scan.cursor <= j < p.scan.limit && j < |slots| && slots[j] == ch;
      assert N.Listed(s.lists, k)[j] == ch;
      assert ch in N.Listed(s.lists, k);
    }
  }

  lemma ReadCalm(s: State, pid: nat, k: Key)
    requires CalmOk(s, k)
    ensures CalmOk(ReadStep(s, pid), k)
  {
    if pid in s.pushes && s.pushes[pid].Fanning? && s.pushes[pid].scan.hand.None? {
      var p, q := s.pushes[pid], ReadStep(s, pid).pushes[pid];
      if q.Fanning? && p.row.recipient == k {
        assert CalmScan(s.lists, s.sessions, p);
        forall ch: nat | F.Ahead(SlotsAt(s.lists.heap, q.arr), q.scan, ch) ensures ListeningAt(s.sessions, ch) {
          ReadKeeps(s.lists.heap, s, pid, ch, k);
        }
      }
      SameCalm(s, ReadStep(s, pid), k);
    }
  }

  lemma SentOnCalm(cfg: Config, s: State, pid: nat, k: Key)
    requires CalmOk(s, k) && Holds(s, pid)
    ensures CalmOk(SentOn(cfg, s, pid), k)
  {
    var p := s.pushes[pid];
    var s1, q := AtStep(cfg, s, p.scan.hand.value, Signal), p.(scan := p.scan.(hand := None));
    AtCalm(cfg, s, p.scan.hand.value, Signal, k);
    if p.row.recipient == k {
      assert CalmScan(s1.lists, s1.sessions, p);
      assert CalmScan(s1.lists, s1.sessions, q);
    }
    SameCalm(s1, s1.(pushes := s1.pushes[pid := q]), k);
  }

  lemma SendCalm(cfg: Config, s: State, pid: nat, k: Key)
    requires CalmOk(s, k)
    ensures CalmOk(SendStep(cfg, s, pid), k)
  {
    if Holds(s, pid) {
      SentOnCalm(cfg, s, pid, k);
    }
  }

  lemma AckCalm(s: State, pid: nat, k: Key)
    requires CalmOk(s, k)
    ensures CalmOk(AckStep(s, pid), k)
  {
    if AckStep(s, pid) != s {
      SameCalm(s, AckStep(s, pid), k);
    }
  }

  // ---------------------------------------------------------------- the lists change

  /** The fan-out reads the same as before. */
  predicate ReadsSame(heap: seq<N.Array>, heap': seq<N.Array>, p: Progress)
    requires p.Fanning?
  {
    var slots, slots' := SlotsAt(heap, p.arr), SlotsAt(heap', p.arr);
    && p.scan.limit <= |slots| && p.scan.limit <= |slots'|
    && slots'[..p.scan.limit] == slots[..p.scan.limit]
  }

  lemma AheadSame(heap: seq<N.Array>, heap': seq<N.Array>, p: Progress, ch: nat)
    requires p.Fanning? && (p.scan.limit > 0 ==> ReadsSame(heap, heap', p))
    ensures F.Ahead(SlotsAt(heap', p.arr), p.scan, ch) <==> F.Ahead(SlotsAt(heap, p.arr), p.scan, ch)
  {
    var slots, slots' := SlotsAt(heap, p.arr), SlotsAt(heap', p.arr);
    forall j | 0 <= j < p.scan.limit ensures slots'[j] == slots[j] {
      assert slots'[..p.scan.limit][j] == slots[..p.scan.limit][j];
    }
    if j :| p.scan.cursor <= j < p.scan.limit && j < |slots| && slots[j] == ch {
      assert slots'[j] == ch;
    }
    if j :| p.scan.cursor <= j < p.scan.limit && j < |slots'| && slots'[j] == ch {
      assert slots[j] == ch;
    }
  }

  /** Every fan-out of k reads the same as before. */
  ghost predicate AllReadSame(s: State, heap': seq<N.Array>, k: Key) {
    forall p :: p in s.pushes && s.pushes[p].Fanning? && s.pushes[p].row.recipient == k && s.pushes[p].scan.limit > 0
      ==> ReadsSame(s.lists.heap, heap', s.pushes[p])
  }

  lemma PendingSame(s: State, heap': seq<N.Array>, k: Key, sid: nat)
    requires AllReadSame(s, heap', k)
    ensures Pending(heap', s.pushes, sid, k) <==> Pending(s.lists.heap, s.pushes, sid, k)
  {
    forall p | p in s.pushes ensures PendsFor(heap', s.pushes[p], sid, k)
      <==> PendsFor(s.lists.heap, s.pushes[p], sid, k) {
      if s.pushes[p].Fanning? && s.pushes[p].row.recipient == k {
        AheadSame(s.lists.heap, heap', s.pushes[p], sid);
      }
    }
  }

  /** Lists that leave k's fan-outs what they read overtake none of k's sessions. */
  lemma WithListsCalm(s: State, lists: N.Lists, k: Key)
    requires CalmOk(s, k) && AllReadSame(s, lists.heap, k)
    requires forall p :: p in s.pushes && s.pushes[p].Fanning? && s.pushes[p].row.recipient == k
                         && k in lists.subs && lists.subs[k].arr == s.pushes[p].arr
                         ==> s.pushes[p].scan.limit <= lists.subs[k].len
    ensures CalmOk(WithLists(s, lists), k)
  {
    var s' := WithLists(s, lists);
    forall sid | sid in s'.sessions && s'.sessions[sid].key == k ensures !s'.sessions[sid].behind {
      PendingSame(s, lists.heap, k, sid);
    }
    forall p | p in s'.pushes && s'.pushes[p].Fanning? && s'.pushes[p].row.recipient == k
      ensures CalmScan(s'.lists, s'.sessions, s'.pushes[p])
    {
      assert CalmScan(s.lists, s.sessions, s.pushes[p]);
      forall ch: nat | F.Ahead(SlotsAt(lists.heap, s.pushes[p].arr), s.pushes[p].scan, ch)
        ensures ListeningAt(s'.sessions, ch)
      {
        AheadSame(s.lists.heap, lists.heap, s.pushes[p], ch);
      }
    }
  }

  lemma StagedCalm(s: State, sid: nat, ss': Session, k: Key)
    requires CalmOk(s, k) && sid in s.sessions && !ListeningAt(s.sessions, sid)
    requires ss'.key == s.sessions[sid].key && ss'.behind == s.sessions[sid].behind
    ensures CalmOk(s.(sessions := s.sessions[sid := ss']), k)
  {
    SameCalm(s, s.(sessions := s.sessions[sid := ss']), k);
  }

  /** A subscription writes behind what any fan-out of a calm run reads. */
  lemma SubscribedReadsSame(s: State, l: Key, ch: nat, spare: nat, k: Key)
    requires ListsOk(s) && CalmScans(s, k)
    ensures var lists := N.Subscribed(s.lists, l, ch, spare);
            && AllReadSame(s, lists.heap, k)
            && forall p :: p in s.pushes && s.pushes[p].Fanning? && s.pushes[p].row.recipient == k
                           && k in lists.subs && lists.subs[k].arr == s.pushes[p].arr
                           ==> s.pushes[p].scan.limit <= lists.subs[k].len
  {
    forall p | p in s.pushes && s.pushes[p].Fanning? && s.pushes[p].row.recipient == k && s.pushes[p].scan.limit > 0
      ensures ReadsSame(s.lists.heap, N.Subscribed(s.lists, l, ch, spare).heap, s.pushes[p])
    {
      SubscribedReads(s, l, ch, spare, s.pushes[p]);
    }
    forall p | p in s.pushes && s.pushes[p].Fanning? && s.pushes[p].row.recipient == k
      ensures var lists := N.Subscribed(s.lists, l, ch, spare);
              k in lists.subs && lists.subs[k].arr == s.pushes[p].arr ==> s.pushes[p].scan.limit <= lists.subs[k].len
    {
      assert ScanOk(s.lists.heap, s.sessions, s.pushes[p]) && CalmScan(s.lists, s.sessions, s.pushes[p]);
    }
  }

  lemma SubscribedReads(s: State, l: Key, ch: nat, spare: nat, p: Progress)
    requires N.Sound(s.lists) && p.Fanning? && p.scan.limit > 0
    requires ScanOk(s.lists.heap, s.sessions, p) && CalmScan(s.lists, s.sessions, p)
    ensures ReadsSame(s.lists.heap, N.Subscribed(s.lists, l, ch, spare).heap, p)
  {
    var slots, slots' := SlotsAt(s.lists.heap, p.arr), SlotsAt(N.Subscribed(s.lists, l, ch, spare).heap, p.arr);
    if N.HasSpare(s.lists, l) && s.lists.subs[l].arr == p.arr {
      assert slots' == N.Put(slots, s.lists.subs[l].len, ch);
      assert slots'[..p.scan.limit] == slots[..p.scan.limit];
    } else {
      assert slots' == slots;
    }
  }

  lemma SubscribeCalm(cfg: Config, s: State, sid: nat, ok: bool, spare: nat, k: Key)
    requires ListsOk(s) && CalmOk(s, k)
    ensures CalmOk(SubscribeStep(cfg, s, sid, ok, spare), k)
  {
    if sid in s.sessions && s.sessions[sid].pc.Acquired? {
      if ok {
        var ss' := s.sessions[sid].(pc := FirstPeek, stage := Listening);
        var s1 := s.(sessions := s.sessions[sid := ss']);
        assert Placed(s.sessions[sid]);
        StagedCalm(s, sid, ss', k);
        SubscribedReadsSame(s, ss'.key, sid, spare, k);
        WithListsCalm(s1, N.Subscribed(s.lists, ss'.key, sid, spare), k);
      } else {
        LeaveCalm(cfg, s, sid, k);
      }
    }
  }

  /** A removal from another key's list writes none of k's arrays. */
  lemma UnsubscribedReadsSame(s: State, l: Key, ch: nat, k: Key)
    requires ListsOk(s) && CalmScans(s, k) && l != k
    ensures var lists := N.Unsubscribed(s.lists, l, ch);
            && AllReadSame(s, lists.heap, k)
            && forall p :: p in s.pushes && s.pushes[p].Fanning? && s.pushes[p].row.recipient == k
                           && k in lists.subs && lists.subs[k].arr == s.pushes[p].arr
                           ==> s.pushes[p].scan.limit <= lists.subs[k].len
  {
    forall p | p in s.pushes && s.pushes[p].Fanning? && s.pushes[p].row.recipient == k
      ensures var lists := N.Unsubscribed(s.lists, l, ch);
              && (s.pushes[p].scan.limit > 0 ==> ReadsSame(s.lists.heap, lists.heap, s.pushes[p]))
              && (k in lists.subs && lists.subs[k].arr == s.pushes[p].arr ==>
                    s.pushes[p].scan.limit <= lists.subs[k].len)
    {
      UnsubscribedReads(s, l, ch, s.pushes[p]);
    }
  }

  lemma UnsubscribedReads(s: State, l: Key, ch: nat, p: Progress)
    requires N.Sound(s.lists) && p.Fanning? && l != p.row.recipient
    requires ScanOk(s.lists.heap, s.sessions, p) && CalmScan(s.lists, s.sessions, p)
    ensures var lists, k := N.Unsubscribed(s.lists, l, ch), p.row.recipient;
            && (p.scan.limit > 0 ==> ReadsSame(s.lists.heap, lists.heap, p))
            && (k in lists.subs && lists.subs[k].arr == p.arr ==> p.scan.limit <= lists.subs[k].len)
  {
    assert p.scan.limit > 0 ==>
        SlotsAt(N.Unsubscribed(s.lists, l, ch).heap, p.arr) == SlotsAt(s.lists.heap, p.arr);
  }

  /** With no fan-out of k in progress nothing reads k's arrays. */
  lemma IdleReadsSame(s: State, lists: N.Lists, k: Key)
    requires !FanOutInProgress(s, k)
    ensures AllReadSame(s, lists.heap, k)
  {
  }

  lemma UnsubscribeCalm(s: State, sid: nat, k: Key)
    requires ListsOk(s) && CalmOk(s, k) && CalmEvent(s, Unsubscribe(sid), k)
    ensures CalmOk(UnsubscribeStep(s, sid), k)
  {
    if sid in s.sessions && s.sessions[sid].cancelled && s.sessions[sid].stage.Listening? {
      var ss' := s.sessions[sid].(stage := Removed);
      var s1 := s.(sessions := s.sessions[sid := ss']);
      var lists := N.Unsubscribed(s.lists, ss'.key, sid);
      if ss'.key == k {
        IdleReadsSame(s, lists, k);
      } else {
        UnsubscribedReadsSame(s, ss'.key, sid, k);
      }
      RemovedCalm(s, sid, ss', k);
      WithListsCalm(s1, lists, k);
    }
  }

  lemma RemovedCalm(s: State, sid: nat, ss': Session, k: Key)
    requires ListsOk(s) && CalmOk(s, k) && sid in s.sessions
    requires ss'.key == s.sessions[sid].key && ss'.behind == s.sessions[sid].behind
    requires ss'.key == k ==> !FanOutInProgress(s, k)
    ensures CalmOk(s.(sessions := s.sessions[sid := ss']), k)
  {
    forall p | p in s.pushes && s.pushes[p].Fanning? && s.pushes[p].row.recipient == k
      ensures CalmScan(s.lists, s.sessions[sid := ss'], s.pushes[p])
    {
      assert CalmScan(s.lists, s.sessions, s.pushes[p]);
      forall ch: nat | F.Ahead(SlotsAt(s.lists.heap, s.pushes[p].arr), s.pushes[p].scan, ch)
        ensures ListeningAt(s.sessions[sid := ss'], ch)
      {
        AheadIsOwn(s, p, ch);
      }
    }
  }

  // ---------------------------------------------------------------- every step and every calm run

  lemma StepCalm(cfg: Config, s: State, ev: Event, k: Key)
    requires ListsOk(s) && CalmOk(s, k) && CalmEvent(s, ev, k)
    ensures CalmOk(Step(cfg, s, ev), k)
  {
    match ev
    case At(sid, e) => AtCalm(cfg, s, sid, e, k);
    case Connect(sid, l) => ConnectCalm(cfg, s, sid, l, k);
    case Subscribe(sid, ok, spare) => SubscribeCalm(cfg, s, sid, ok, spare, k);
    case Unsubscribe(sid) => UnsubscribeCalm(s, sid, k);
    case CloseChannel(sid) => CloseCalm(s, sid, k);
    case Teardown(sid) => TeardownCalm(cfg, s, sid, k);
    case Inbound(sid, plain, fault) => InboundCalm(cfg, s, sid, plain, fault, k);
    case PushFrame(pid, plain, clock, wall, fault) => PushCalm(cfg, s, ev, k);
    case BeginNotify(pid) => BeginCalm(s, pid, k);
    case NotifyRead(pid) => ReadCalm(s, pid, k);
    case NotifySend(pid) => SendCalm(cfg, s, pid, k);
    case AckPush(pid) => AckCalm(s, pid, k);
    case ReapNow(_) =>
    case Crash =>
  }

  /** In a calm run no wake-up of the key's sessions is ever lost. */
  lemma {:induction false} CalmNeverBehind(cfg: Config, evs: seq<Event>, k: Key)
    requires cfg.Ok() && CalmRun(cfg, evs, k)
    ensures CalmOk(Run(cfg, Init, evs), k)
  {
    if evs != [] {
      var n := |evs| - 1;
      assert forall i :: 0 <= i < n ==> evs[..n][..i] == evs[..i];
      CalmNeverBehind(cfg, evs[..n], k);
      InitInv(cfg);
      RunInv(cfg, Init, evs[..n]);
      StepCalm(cfg, Run(cfg, Init, evs[..n]), evs[n], k);
    }
  }

  lemma HandListening(s: State, pid: nat)
    requires Holds(s, pid) && CalmScans(s, s.pushes[pid].row.recipient)
    ensures ListeningAt(s.sessions, s.pushes[pid].scan.hand.value)
  {
    var p := s.pushes[pid];
    assert CalmScan(s.lists, s.sessions, p);
    assert F.Ahead(SlotsAt(s.lists.heap, p.arr), p.scan, p.scan.hand.value);
  }

  /** ... and no fan-out of the key comes to a closed channel. */
  lemma CalmNeverHits(cfg: Config, evs: seq<Event>, k: Key, pid: nat)
    requires cfg.Ok() && CalmRun(cfg, evs, k)
    requires Holds(Run(cfg, Init, evs), pid) && Run(cfg, Init, evs).pushes[pid].row.recipient == k
    ensures var s := Run(cfg, Init, evs); SendStep(cfg, s, pid) == SentOn(cfg, s, pid)
  {
    CalmNeverBehind(cfg, evs, k);
    HandListening(Run(cfg, Init, evs), pid);
    SendsOn(cfg, Run(cfg, Init, evs), pid);
  }

  lemma SendsOn(cfg: Config, s: State, pid: nat)
    requires Holds(s, pid)
    ensures SendStep(cfg, s, pid)
            == if ClosedIn(s, s.pushes[pid].scan.hand.value) then Restarted(s) else SentOn(cfg, s, pid)
  {
  }

  /** So whatever still has a session before it will send to it. */
  lemma CalmWillSend(s: State, sid: nat)
    requires sid in s.sessions && CalmScans(s, s.sessions[sid].key) && PendingIn(s, sid)
    ensures MaySignal(s, sid)
  {
    var k := s.sessions[sid].key;
    var p :| p in s.pushes && PendsFor(s.lists.heap, s.pushes[p], sid, k);
    if s.pushes[p].Fanning? {
      var slots, sc := SlotsAt(s.lists.heap, s.pushes[p].arr), s.pushes[p].scan;
      assert CalmScan(s.lists, s.sessions, s.pushes[p]);
      assert sc.hand.Some? ==> F.Ahead(slots, sc, sc.hand.value);
      if sc.hand != Some(sid) {
        var j: nat :| sc.cursor <= j < sc.limit && j < |slots| && slots[j] == sid;
        forall i | sc.cursor <= i < j ensures !ClosedAt(s.sessions, slots[i]) {
          assert F.InSlots(slots, sc, slots[i]) && F.Ahead(slots, sc, slots[i]);
        }
        assert ClearTo(s.sessions, slots, sc, sid, j);
      }
    }
    WillIsMay(s.lists, s.sessions, s.pushes[p], sid, k);
  }

  /** Over every calm run from an empty store: whatever row a live session's Inbox holds, steps
      that need nothing from outside bring it to the Device, provided the writer is up. */
  lemma NoRowStranded(cfg: Config, evs: seq<Event>, sid: nat, r: Row) returns (more: seq<Event>)
    requires cfg.Ok() && sid in Run(cfg, Init, evs).sessions && r in Run(cfg, Init, evs).table.rows
    requires var ss := Run(cfg, Init, evs).sessions[sid];
             r.recipient == ss.key && Live(ss) && WriterUp(ss) && CalmRun(cfg, evs, ss.key)
    ensures AllInternal(more) && Delivers(cfg, Init, evs + more, sid, r)
  {
    var s := Run(cfg, Init, evs);
    InitInv(cfg);
    RunInv(cfg, Init, evs);
    CalmNeverBehind(cfg, evs, s.sessions[sid].key);
    if PendingIn(s, sid) {
      CalmWillSend(s, sid);
    }
    assert WakeOk(s.table, s.sessions[sid], PendingIn(s, sid));
    more := StillDeliverable(cfg, s, sid, r);
    RunConcat(cfg, Init, evs, more);
  }
}
