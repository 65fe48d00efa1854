/** What every step keeps true of the subscriber lists, their arrays, and the fan-outs reading them. */
module DeliveryLists {
  import opened Base
  import opened Inbox
  import opened FrameCodec
  import opened Router
  import opened Delivery
  import opened DeliveryInvariants
  import W = SessionWriter
  import N = Notifier
  import L = Limits

  predicate Live(ss: Session) {
    !ss.cancelled && !ss.pc.Acquired? && !ss.pc.Done?
  }

  /** The channel is that of a session of k that has subscribed. */
  predicate ChanOk(sessions: map<nat, Session>, k: Key, ch: nat) {
    ch in sessions && sessions[ch].key == k && !sessions[ch].stage.NotYet?
  }

  predicate Placed(ss: Session) {
    (ss.pc.Acquired? ==> ss.stage.NotYet?) && (Live(ss) ==> ss.stage.Listening?)
  }

  /** All slots of an array, stale ones too, hold channels of its key's sessions. */
  ghost predicate ArraysOk(heap: seq<N.Array>, sessions: map<nat, Session>) {
    forall a: nat, j: nat :: a < |heap| && j < |heap[a].slots| ==> ChanOk(sessions, heap[a].owner, heap[a].slots[j])
  }

  /** A key's list holds its listening sessions, each once. */
  ghost predicate ListedOk(lists: N.Lists, sessions: map<nat, Session>) {
    && (forall k :: N.Distinct(N.Listed(lists, k)))
    && (forall k, ch: nat :: ch in N.Listed(lists, k)
                             <==> ch in sessions && sessions[ch].key == k && sessions[ch].stage.Listening?)
  }

  /** A fan-out reads an array of its own key, within what has been written of it. */
  predicate ScanOk(heap: seq<N.Array>, sessions: map<nat, Session>, p: Progress)
    requires p.Fanning?
  {
    && p.scan.cursor <= p.scan.limit
    && (p.scan.limit > 0 ==>
          p.arr < |heap| && heap[p.arr].owner == p.row.recipient && p.scan.limit <= |heap[p.arr].slots|)
    && (p.scan.hand.Some? ==> ChanOk(sessions, p.row.recipient, p.scan.hand.value))
  }

  ghost predicate ScansOk(s: State) {
    forall p :: p in s.pushes && s.pushes[p].Fanning? ==> ScanOk(s.lists.heap, s.sessions, s.pushes[p])
  }

  ghost predicate ListsOk(s: State) {
    && N.Sound(s.lists)
    && ArraysOk(s.lists.heap, s.sessions)
    && ListedOk(s.lists, s.sessions)
    && ScansOk(s)
    && forall sid :: sid in s.sessions ==> Placed(s.sessions[sid])
  }

  // ---------------------------------------------------------------- steps that leave the lists alone

  predicate SameStage(a: Session, b: Session) {
    a.key == b.key && a.stage == b.stage
  }

  /** Old sessions keep their key and stage; new ones have not subscribed. */
  ghost predicate SameStages(sessions: map<nat, Session>, sessions': map<nat, Session>) {
    && (forall sid :: sid in sessions ==> sid in sessions' && SameStage(sessions[sid], sessions'[sid]))
    && (forall sid :: sid in sessions' && sid !in sessions ==> sessions'[sid].stage.NotYet?)
  }

  lemma SameLists(s: State, s': State)
    requires ListsOk(s) && s'.lists == s.lists && SameStages(s.sessions, s'.sessions)
    requires forall sid :: sid in s'.sessions ==> Placed(s'.sessions[sid])
    requires forall p :: p in s'.pushes && s'.pushes[p].Fanning? ==> ScanOk(s.lists.heap, s.sessions, s'.pushes[p])
    ensures ListsOk(s')
  {
    forall k, ch: nat
      ensures ch in N.Listed(s.lists, k)
              <==> ch in s'.sessions && s'.sessions[ch].key == k && s'.sessions[ch].stage.Listening?
    {
      assert ch in s.sessions ==> SameStage(s.sessions[ch], s'.sessions[ch]);
    }
    forall p | p in s'.pushes && s'.pushes[p].Fanning? ensures ScanOk(s'.lists.heap, s'.sessions, s'.pushes[p]) {
      assert s'.pushes[p].scan.hand.Some? ==>
          SameStage(s.sessions[s'.pushes[p].scan.hand.value], s'.sessions[s'.pushes[p].scan.hand.value]);
    }
    forall a: nat, j: nat | a < |s.lists.heap| && j < |s.lists.heap[a].slots|
      ensures ChanOk(s'.sessions, s.lists.heap[a].owner, s.lists.heap[a].slots[j])
    {
      var ch := s.lists.heap[a].slots[j];
      assert ChanOk(s.sessions, s.lists.heap[a].owner, ch) && SameStage(s.sessions[ch], s'.sessions[ch]);
    }
  }

  /** One session changes, and neither its key nor its stage. */
  lemma OneKeeps(s: State, s': State, sid: nat)
    requires ListsOk(s) && s'.lists == s.lists && s'.pushes == s.pushes
    requires sid in s.sessions && sid in s'.sessions && s'.sessions == s.sessions[sid := s'.sessions[sid]]
    requires SameStage(s.sessions[sid], s'.sessions[sid]) && Placed(s'.sessions[sid])
    ensures ListsOk(s')
  {
    SameLists(s, s');
  }

  lemma LocalPlaced(c: W.Cipher, t: Table, ss: Session, e: LocalEvent)
    requires Placed(ss)
    ensures SameStage(ss, Local(c, t, ss, e)) && Placed(Local(c, t, ss, e))
  {
  }

  lemma AtLists(cfg: Config, s: State, sid: nat, e: LocalEvent)
    requires ListsOk(s)
    ensures ListsOk(AtStep(cfg, s, sid, e))
  {
    if sid in s.sessions {
      LocalPlaced(cfg.cipher, s.table, s.sessions[sid], e);
      OneKeeps(s, AtStep(cfg, s, sid, e), sid);
    }
  }

  lemma ConnectLists(cfg: Config, s: State, sid: nat, k: Key)
    requires ListsOk(s)
    ensures ListsOk(ConnectStep(cfg, s, sid, k))
  {
    SameLists(s, ConnectStep(cfg, s, sid, k));
  }

  lemma LeaveLists(cfg: Config, s: State, sid: nat)
    requires ListsOk(s) && sid in s.sessions
    ensures ListsOk(Leave(cfg, s, sid))
  {
    OneKeeps(s, Leave(cfg, s, sid), sid);
  }

  lemma TeardownLists(cfg: Config, s: State, sid: nat)
    requires ListsOk(s)
    ensures ListsOk(TeardownStep(cfg, s, sid))
  {
    if TeardownStep(cfg, s, sid) != s {
      LeaveLists(cfg, s, sid);
    }
  }

  lemma RestartedLists(s: State)
    ensures ListsOk(Restarted(s))
  {
  }

  lemma InboundLists(cfg: Config, s: State, sid: nat, plain: Bytes, fault: bool)
    requires ListsOk(s)
    ensures ListsOk(InboundStep(cfg, s, sid, plain, fault))
  {
    RestartedLists(s);
    if sid in s.sessions {
      SayIsOutput(cfg, s, sid, W.Complain);
      SayIsOutput(cfg, s, sid, W.Echo);
    }
    AtLists(cfg, s, sid, Output(W.Complain));
    AtLists(cfg, s, sid, Output(W.Echo));
    TableLists(s, DeletedTable(s, sid, plain));
  }

  function DeletedTable(s: State, sid: nat, plain: Bytes): Table {
    match Parse(plain)
    case Parsed(t, body) =>
      if sid in s.sessions && DecodeDeliverAck(body).Some?
      then DeleteFor(s.table, s.sessions[sid].key, [ToI64(DecodeDeliverAck(body).value)]) else s.table
    case _ => s.table
  }

  lemma TableLists(s: State, t: Table)
    requires ListsOk(s)
    ensures ListsOk(s.(table := t))
  {
    SameLists(s, s.(table := t));
  }

  /** A push's progress changes, to no fan-out or to a sound one. */
  lemma ProgressLists(s: State, s': State, pid: nat, p: Progress)
    requires ListsOk(s) && s'.lists == s.lists && s'.sessions == s.sessions && s'.pushes == s.pushes[pid := p]
    requires p.Fanning? ==> ScanOk(s.lists.heap, s.sessions, p)
    ensures ListsOk(s')
  {
    SameLists(s, s');
  }

  lemma PushLists(cfg: Config, s: State, pid: nat, plain: Bytes, clock: L.Clock, wall: int, fault: bool)
    requires ListsOk(s)
    ensures ListsOk(PushStep(cfg, s, pid, plain, clock, wall, fault))
  {
    RestartedLists(s);
    if pid !in s.pushes {
      match Parse(plain)
      case Parsed(t, body) =>
        AfterPushLists(s, pid, body, Push(cfg, s.buckets, s.table, body, clock, wall, fault));
        MalformedLists(s, pid);
      case _ => MalformedLists(s, pid);
    }
  }

  lemma MalformedLists(s: State, pid: nat)
    requires ListsOk(s)
    ensures ListsOk(s.(pushes := s.pushes[pid := Declined(REASON_MALFORMED)]))
  {
    ProgressLists(s, s.(pushes := s.pushes[pid := Declined(REASON_MALFORMED)]), pid, Declined(REASON_MALFORMED));
  }

  lemma AfterPushLists(s: State, pid: nat, body: Bytes, r: PushResult)
    requires ListsOk(s)
    ensures ListsOk(AfterPush(s, pid, body, r))
  {
    ProgressLists(s, AfterPush(s, pid, body, r), pid, AfterPush(s, pid, body, r).pushes[pid]);
  }

  // ---------------------------------------------------------------- the fan-out's steps

  lemma BeginLists(s: State, pid: nat)
    requires ListsOk(s)
    ensures ListsOk(BeginStep(s, pid))
  {
    if pid in s.pushes && s.pushes[pid].Committed? {
      ProgressLists(s, BeginStep(s, pid), pid, BeginStep(s, pid).pushes[pid]);
    }
  }

  lemma ReadLists(s: State, pid: nat)
    requires ListsOk(s)
    ensures ListsOk(ReadStep(s, pid))
  {
    if pid in s.pushes && s.pushes[pid].Fanning? && s.pushes[pid].scan.hand.None? {
      var p := s.pushes[pid];
      assert ScanOk(s.lists.heap, s.sessions, p);
      ProgressLists(s, ReadStep(s, pid), pid, ReadStep(s, pid).pushes[pid]);
    }
  }

  lemma SentOnLists(cfg: Config, s: State, pid: nat)
    requires ListsOk(s) && Holds(s, pid)
    ensures ListsOk(SentOn(cfg, s, pid))
  {
    var p := s.pushes[pid];
    var s1 := AtStep(cfg, s, p.scan.hand.value, Signal);
    AtLists(cfg, s, p.scan.hand.value, Signal);
    assert ScanOk(s1.lists.heap, s1.sessions, s1.pushes[pid]);
    var q := p.(scan := p.scan.(hand := None));
    ProgressLists(s1, s1.(pushes := s1.pushes[pid := q]), pid, q);
  }

  lemma SendLists(cfg: Config, s: State, pid: nat)
    requires ListsOk(s)
    ensures ListsOk(SendStep(cfg, s, pid))
  {
    RestartedLists(s);
    if Holds(s, pid) {
      SentOnLists(cfg, s, pid);
    }
  }

  lemma AckLists(s: State, pid: nat)
    requires ListsOk(s)
    ensures ListsOk(AckStep(s, pid))
  {
    if AckStep(s, pid) != s {
      ProgressLists(s, AckStep(s, pid), pid, AckStep(s, pid).pushes[pid]);
    }
  }

  // ---------------------------------------------------------------- subscribing and unsubscribing

  /** The lists and one session's stage change together; arrays only gain channels of their own
      key's sessions. */
  lemma ChangedLists(s: State, sid: nat, ss': Session, lists: N.Lists)
    requires ListsOk(s) && sid in s.sessions && ss'.key == s.sessions[sid].key && !ss'.stage.NotYet? && Placed(ss')
    requires N.Sound(lists) && N.Grows(s.lists.heap, lists.heap)
    requires ListedOk(lists, s.sessions[sid := ss']) && ArraysOk(lists.heap, s.sessions[sid := ss'])
    ensures ListsOk(WithLists(s.(sessions := s.sessions[sid := ss']), lists))
  {
    var sessions := s.sessions[sid := ss'];
    var s1 := s.(sessions := sessions);
    var s2 := WithLists(s1, lists);
    assert SameStages(sessions, s2.sessions);
    forall p | p in s2.pushes && s2.pushes[p].Fanning? ensures ScanOk(lists.heap, s2.sessions, s2.pushes[p]) {
      assert ScanOk(s.lists.heap, s.sessions, s.pushes[p]);
    }
    forall o | o in s2.sessions ensures Placed(s2.sessions[o]) {
      assert o != sid ==> Placed(s.sessions[o]);
    }
    KeptArrays(lists.heap, sessions, s2.sessions);
    KeptListed(lists, sessions, s2.sessions);
  }

  lemma KeptArrays(heap: seq<N.Array>, sessions: map<nat, Session>, sessions': map<nat, Session>)
    requires ArraysOk(heap, sessions) && SameStages(sessions, sessions')
    ensures ArraysOk(heap, sessions')
  {
    forall a: nat, j: nat | a < |heap| && j < |heap[a].slots|
      ensures ChanOk(sessions', heap[a].owner, heap[a].slots[j])
    {
      assert ChanOk(sessions, heap[a].owner, heap[a].slots[j]);
    }
  }

  lemma KeptListed(lists: N.Lists, sessions: map<nat, Session>, sessions': map<nat, Session>)
    requires ListedOk(lists, sessions) && SameStages(sessions, sessions')
    ensures ListedOk(lists, sessions')
  {
    forall k, ch: nat
      ensures ch in N.Listed(lists, k)
              <==> ch in sessions' && sessions'[ch].key == k && sessions'[ch].stage.Listening?
    {
      assert ch in sessions ==> SameStage(sessions[ch], sessions'[ch]);
    }
  }

  predicate ListHas(chs: seq<nat>, sessions: map<nat, Session>, k: Key, ch: nat) {
    ch in chs <==> ch in sessions && sessions[ch].key == k && sessions[ch].stage.Listening?
  }

  /** k's list holds its listening sessions, each once. */
  ghost predicate AllListed(chs: seq<nat>, sessions: map<nat, Session>, k: Key) {
    N.Distinct(chs) && forall ch: nat :: ListHas(chs, sessions, k, ch)
  }

  lemma KeyIsListed(s: State, k: Key)
    requires ListsOk(s)
    ensures AllListed(N.Listed(s.lists, k), s.sessions, k)
  {
    forall ch: nat ensures ListHas(N.Listed(s.lists, k), s.sessions, k, ch) {
      assert ch in N.Listed(s.lists, k)
             <==> ch in s.sessions && s.sessions[ch].key == k && s.sessions[ch].stage.Listening?;
    }
  }

  lemma AllKeysListed(lists: N.Lists, sessions: map<nat, Session>)
    requires forall k :: AllListed(N.Listed(lists, k), sessions, k)
    ensures ListedOk(lists, sessions)
  {
    forall k ensures N.Distinct(N.Listed(lists, k)) {
      assert AllListed(N.Listed(lists, k), sessions, k);
    }
    forall k, ch: nat
      ensures ch in N.Listed(lists, k) <==> ch in sessions && sessions[ch].key == k && sessions[ch].stage.Listening?
    {
      assert AllListed(N.Listed(lists, k), sessions, k) && ListHas(N.Listed(lists, k), sessions, k, ch);
    }
  }

  /** A list that has gained sid, if it is of sid's key. */
  lemma JoinedListed(chs: seq<nat>, chs': seq<nat>, sessions: map<nat, Session>, sessions': map<nat, Session>,
                     sid: nat, k: Key)
    requires sid in sessions && sid in sessions' && sessions' == sessions[sid := sessions'[sid]]
    requires sessions[sid].stage.NotYet? && sessions'[sid].stage.Listening? && sessions'[sid].key == sessions[sid].key
    requires chs' == if k == sessions[sid].key then chs + [sid] else chs
    requires AllListed(chs, sessions, k)
    ensures AllListed(chs', sessions', k)
  {
    assert ListHas(chs, sessions, k, sid);
    forall ch: nat ensures ListHas(chs', sessions', k, ch) {
      assert ListHas(chs, sessions, k, ch);
    }
  }

  /** A list that has lost sid, if it is of sid's key. */
  lemma LeftListed(chs: seq<nat>, chs': seq<nat>, sessions: map<nat, Session>, sessions': map<nat, Session>,
                   sid: nat, k: Key)
    requires sid in sessions && sid in sessions' && sessions' == sessions[sid := sessions'[sid]]
    requires sessions[sid].stage.Listening? && sessions'[sid].stage.Removed? && sessions'[sid].key == sessions[sid].key
    requires k == sessions[sid].key ==> sid in chs && chs' == N.Without(chs, N.IndexOf(chs, sid))
    requires k != sessions[sid].key ==> chs' == chs
    requires AllListed(chs, sessions, k)
    ensures AllListed(chs', sessions', k)
  {
    if k == sessions[sid].key {
      N.WithoutKeepsOthers(chs, N.IndexOf(chs, sid));
    }
    forall ch: nat ensures ListHas(chs', sessions', k, ch) {
      assert ListHas(chs, sessions, k, ch);
    }
  }

  lemma SubscribedListed(s: State, sid: nat, ss': Session, spare: nat)
    requires ListsOk(s) && sid in s.sessions && s.sessions[sid].stage.NotYet?
    requires ss'.key == s.sessions[sid].key && ss'.stage.Listening?
    ensures ListedOk(N.Subscribed(s.lists, ss'.key, sid, spare), s.sessions[sid := ss'])
  {
    var lists, sessions := N.Subscribed(s.lists, ss'.key, sid, spare), s.sessions[sid := ss'];
    forall k ensures AllListed(N.Listed(lists, k), sessions, k) {
      KeyIsListed(s, k);
      N.SubscribedLists(s.lists, ss'.key, sid, spare, k);
      JoinedListed(N.Listed(s.lists, k), N.Listed(lists, k), s.sessions, sessions, sid, k);
    }
    AllKeysListed(lists, sessions);
  }

  lemma SubscribedArrays(s: State, sid: nat, ss': Session, spare: nat)
    requires ListsOk(s) && sid in s.sessions && ss'.key == s.sessions[sid].key && ss'.stage.Listening?
    ensures ArraysOk(N.Subscribed(s.lists, ss'.key, sid, spare).heap, s.sessions[sid := ss'])
  {
    var heap, sessions := N.Subscribed(s.lists, ss'.key, sid, spare).heap, s.sessions[sid := ss'];
    forall a: nat, j: nat | a < |heap| && j < |heap[a].slots|
      ensures ChanOk(sessions, heap[a].owner, heap[a].slots[j])
    {
      N.SubscribedSlots(s.lists, ss'.key, sid, spare, a, j);
      assert heap[a].slots[j] in N.Listed(s.lists, ss'.key) ==> ChanOk(s.sessions, ss'.key, heap[a].slots[j]);
    }
  }

  lemma SubscribeLists(cfg: Config, s: State, sid: nat, ok: bool, spare: nat)
    requires ListsOk(s)
    ensures ListsOk(SubscribeStep(cfg, s, sid, ok, spare))
  {
    if sid in s.sessions && s.sessions[sid].pc.Acquired? {
      if ok {
        var ss' := s.sessions[sid].(pc := FirstPeek, stage := Listening);
        assert Placed(s.sessions[sid]);
        SubscribedListed(s, sid, ss', spare);
        SubscribedArrays(s, sid, ss', spare);
        N.SubscribedLists(s.lists, ss'.key, sid, spare, ss'.key);
        ChangedLists(s, sid, ss', N.Subscribed(s.lists, ss'.key, sid, spare));
      } else {
        LeaveLists(cfg, s, sid);
      }
    }
  }

  lemma UnsubscribedListed(s: State, sid: nat, ss': Session)
    requires ListsOk(s) && sid in s.sessions && s.sessions[sid].stage.Listening?
    requires ss'.key == s.sessions[sid].key && ss'.stage.Removed?
    ensures ListedOk(N.Unsubscribed(s.lists, ss'.key, sid), s.sessions[sid := ss'])
  {
    var lists, sessions := N.Unsubscribed(s.lists, ss'.key, sid), s.sessions[sid := ss'];
    forall k ensures AllListed(N.Listed(lists, k), sessions, k) {
      KeyIsListed(s, k);
      assert ListHas(N.Listed(s.lists, k), s.sessions, k, sid);
      N.UnsubscribedLists(s.lists, ss'.key, sid, k);
      LeftListed(N.Listed(s.lists, k), N.Listed(lists, k), s.sessions, sessions, sid, k);
    }
    AllKeysListed(lists, sessions);
  }

  lemma UnsubscribedArrays(s: State, sid: nat, ss': Session)
    requires ListsOk(s) && sid in s.sessions && ss'.key == s.sessions[sid].key && ss'.stage.Removed?
    ensures ArraysOk(N.Unsubscribed(s.lists, ss'.key, sid).heap, s.sessions[sid := ss'])
  {
    var heap, sessions := N.Unsubscribed(s.lists, ss'.key, sid).heap, s.sessions[sid := ss'];
    forall a: nat, j: nat | a < |heap| && j < |heap[a].slots|
      ensures ChanOk(sessions, heap[a].owner, heap[a].slots[j])
    {
      N.UnsubscribedSlots(s.lists, ss'.key, sid, a, j);
      var i: nat :| i < |s.lists.heap[a].slots| && s.lists.heap[a].slots[i] == heap[a].slots[j];
      assert ChanOk(s.sessions, heap[a].owner, s.lists.heap[a].slots[i]);
    }
  }

  lemma UnsubscribeLists(s: State, sid: nat)
    requires ListsOk(s)
    ensures ListsOk(UnsubscribeStep(s, sid))
  {
    if sid in s.sessions && s.sessions[sid].cancelled && s.sessions[sid].stage.Listening? {
      var ss' := s.sessions[sid].(stage := Removed);
      assert Placed(s.sessions[sid]);
      UnsubscribedListed(s, sid, ss');
      UnsubscribedArrays(s, sid, ss');
      N.UnsubscribedLists(s.lists, ss'.key, sid, ss'.key);
      ChangedLists(s, sid, ss', N.Unsubscribed(s.lists, ss'.key, sid));
    }
  }

  /** Closing changes a session that no list holds any more. */
  lemma CloseLists(s: State, sid: nat)
    requires ListsOk(s)
    ensures ListsOk(CloseStep(s, sid))
  {
    if sid in s.sessions && s.sessions[sid].stage.Removed? {
      var s' := CloseStep(s, sid);
      assert Placed(s.sessions[sid]);
      ClosedListed(s, sid, s'.sessions[sid]);
      forall p | p in s'.pushes && s'.pushes[p].Fanning? ensures ScanOk(s'.lists.heap, s'.sessions, s'.pushes[p]) {
        assert ScanOk(s.lists.heap, s.sessions, s.pushes[p]);
      }
    }
  }

  lemma ClosedListed(s: State, sid: nat, ss': Session)
    requires ListsOk(s) && sid in s.sessions && s.sessions[sid].stage.Removed?
    requires ss'.key == s.sessions[sid].key && ss'.stage.Closed?
    ensures ListedOk(s.lists, s.sessions[sid := ss']) && ArraysOk(s.lists.heap, s.sessions[sid := ss'])
  {
    var heap, sessions := s.lists.heap, s.sessions[sid := ss'];
    forall k, ch: nat
      ensures ch in N.Listed(s.lists, k) <==> ch in sessions && sessions[ch].key == k && sessions[ch].stage.Listening?
    {
      assert ch in N.Listed(s.lists, k)
             <==> ch in s.sessions && s.sessions[ch].key == k && s.sessions[ch].stage.Listening?;
    }
    forall a: nat, j: nat | a < |heap| && j < |heap[a].slots|
      ensures ChanOk(sessions, heap[a].owner, heap[a].slots[j])
    {
      assert ChanOk(s.sessions, heap[a].owner, heap[a].slots[j]);
    }
  }

  // ---------------------------------------------------------------- every step

  lemma SessionsLists(cfg: Config, s: State, ev: Event)
    requires ListsOk(s) && SessionEvent(ev)
    ensures ListsOk(Step(cfg, s, ev))
  {
    match ev
    case At(sid, e) => AtLists(cfg, s, sid, e);
    case Connect(sid, k) => ConnectLists(cfg, s, sid, k);
    case Subscribe(sid, ok, spare) => SubscribeLists(cfg, s, sid, ok, spare);
    case Unsubscribe(sid) => UnsubscribeLists(s, sid);
    case CloseChannel(sid) => CloseLists(s, sid);
    case Teardown(sid) => TeardownLists(cfg, s, sid);
    case _ =>
  }

  lemma FanOutsLists(cfg: Config, s: State, ev: Event)
    requires ListsOk(s) && FanOutEvent(ev)
    ensures ListsOk(Step(cfg, s, ev))
  {
    match ev
    case BeginNotify(pid) => BeginLists(s, pid);
    case NotifyRead(pid) => ReadLists(s, pid);
    case NotifySend(pid) => SendLists(cfg, s, pid);
    case AckPush(pid) => AckLists(s, pid);
    case _ =>
  }

  lemma FramesLists(cfg: Config, s: State, ev: Event)
    requires ListsOk(s) && FrameEvent(ev)
    ensures ListsOk(Step(cfg, s, ev))
  {
    match ev
    case Inbound(sid, plain, fault) => InboundLists(cfg, s, sid, plain, fault);
    case PushFrame(pid, plain, clock, wall, fault) => PushLists(cfg, s, pid, plain, clock, wall, fault);
    case ReapNow(wall) => TableLists(s, Reap(s.table, wall));
    case Crash => RestartedLists(s);
    case _ =>
  }

  /** Every step of the relay keeps the lists: they hold the listening sessions, arrays hold only
      their own key's, and fan-outs stay within arrays of theirs. */
  lemma StepLists(cfg: Config, s: State, ev: Event)
    requires ListsOk(s)
    ensures ListsOk(Step(cfg, s, ev))
  {
    if SessionEvent(ev) {
      SessionsLists(cfg, s, ev);
    } else if FanOutEvent(ev) {
      FanOutsLists(cfg, s, ev);
    } else {
      FramesLists(cfg, s, ev);
    }
  }
}
