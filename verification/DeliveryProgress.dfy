/** How the relay moves on by itself: a session's own goroutines, and pushes already committed. */
module DeliveryProgress {
  import opened Base
  import opened Inbox
  import opened Router
  import opened Delivery
  import opened DeliverySessions
  import opened DeliveryLists
  import opened DeliveryWake
  import W = SessionWriter
  import N = Notifier
  import F = FanOut

  // ---------------------------------------------------------------- runs

  /** One session's own steps, on its own. */
  function LocalRun(c: W.Cipher, t: Table, ss: Session, es: seq<LocalEvent>): Session {
    if es == [] then ss else Local(c, t, LocalRun(c, t, ss, es[..|es| - 1]), es[|es| - 1])
  }

  lemma {:induction false} LocalConcat(c: W.Cipher, t: Table, ss: Session, a: seq<LocalEvent>, b: seq<LocalEvent>)
    ensures LocalRun(c, t, ss, a + b) == LocalRun(c, t, LocalRun(c, t, ss, a), b)
  {
    if b == [] {
      assert a + b == a;
    } else {
      var init, last := b[..|b| - 1], b[|b| - 1];
      LocalConcat(c, t, ss, a, init);
      assert (a + b)[..|a + b| - 1] == a + init;
    }
  }

  lemma LocalOne(c: W.Cipher, t: Table, ss: Session, e: LocalEvent)
    ensures LocalRun(c, t, ss, [e]) == Local(c, t, ss, e)
  {
    assert [e][..0] == [];
  }

  lemma LocalTwo(c: W.Cipher, t: Table, ss: Session, e: LocalEvent, es: seq<LocalEvent>)
    ensures LocalRun(c, t, ss, [e] + es) == LocalRun(c, t, Local(c, t, ss, e), es)
  {
    LocalConcat(c, t, ss, [e], es);
    LocalOne(c, t, ss, e);
  }

  lemma ThenRest(c: W.Cipher, t: Table, ss: Session, first: seq<LocalEvent>, e: LocalEvent, rest: seq<LocalEvent>)
    ensures LocalRun(c, t, ss, first + ([e] + rest))
            == LocalRun(c, t, Local(c, t, LocalRun(c, t, ss, first), e), rest)
  {
    LocalConcat(c, t, ss, first, [e] + rest);
    LocalTwo(c, t, LocalRun(c, t, ss, first), e, rest);
  }

  /** Steps the session's goroutines take by themselves, none of them failing. */
  predicate Own(e: LocalEvent) {
    || e == Peek(true) || e == SendOne || e == Abandon || e == Wake || e == Take
    || e == Output(W.Enqueue) || e == Output(W.Write) || e == Output(W.Halt) || e == Output(W.GiveUp)
  }

  predicate AllOwn(es: seq<LocalEvent>) {
    forall e :: e in es ==> Own(e)
  }

  /** Steps of the relay that need nothing new from outside: of the session goroutines, of pushes
      that have been committed, of connects that hold their slot, of notifier goroutines whose
      context has ended. */
  predicate Internal(ev: Event) {
    || (ev.At? && Own(ev.e))
    || ev.BeginNotify? || ev.NotifyRead? || ev.NotifySend? || ev.AckPush?
    || (ev.Subscribe? && ev.ok) || ev.Unsubscribe? || ev.CloseChannel? || ev.Teardown?
  }

  predicate AllInternal(evs: seq<Event>) {
    forall ev :: ev in evs ==> Internal(ev)
  }

  function Lift(sid: nat, es: seq<LocalEvent>): (evs: seq<Event>)
    ensures |evs| == |es|
    ensures forall i :: 0 <= i < |es| ==> evs[i] == At(sid, es[i])
  {
    seq(|es|, i requires 0 <= i < |es| => At(sid, es[i]))
  }

  lemma {:induction false} LiftRuns(cfg: Config, s: State, sid: nat, es: seq<LocalEvent>)
    requires sid in s.sessions
    ensures Run(cfg, s, Lift(sid, es))
            == s.(sessions := s.sessions[sid := LocalRun(cfg.cipher, s.table, s.sessions[sid], es)])
  {
    if es == [] {
      assert s.sessions[sid := s.sessions[sid]] == s.sessions;
    } else {
      var init := es[..|es| - 1];
      LiftRuns(cfg, s, sid, init);
      assert Lift(sid, es)[..|es| - 1] == Lift(sid, init);
      var mid := LocalRun(cfg.cipher, s.table, s.sessions[sid], init);
      var end := Local(cfg.cipher, s.table, mid, es[|es| - 1]);
      assert s.sessions[sid := mid][sid := end] == s.sessions[sid := end];
    }
  }

  lemma {:induction false} LocalRunOk(cfg: Config, t: Table, accepted: map<int, Bytes>, ss: Session,
                                      es: seq<LocalEvent>)
    requires cfg.Ok() && SessionOk(cfg, t, accepted, ss) && RowsOk(cfg, t, accepted)
    ensures SessionOk(cfg, t, accepted, LocalRun(cfg.cipher, t, ss, es))
  {
    if es != [] {
      LocalRunOk(cfg, t, accepted, ss, es[..|es| - 1]);
      LocalOk(cfg, t, accepted, LocalRun(cfg.cipher, t, ss, es[..|es| - 1]), es[|es| - 1]);
    }
  }

  // ---------------------------------------------------------------- moving blobs along

  predicate WriterUp(ss: Session) {
    ss.out.alive && !ss.out.exited
  }

  /** Same delivery goroutine state; only the channel and the writer side have moved. */
  predicate SameGoroutine(a: Session, b: Session) {
    && b.key == a.key && b.pc == a.pc && b.lastID == a.lastID && b.signal == a.signal
    && b.cancelled == a.cancelled && b.behind == a.behind && b.sent == a.sent
  }

  /** One step towards the wire: write, else enqueue, else take. */
  function NextOut(ss: Session): LocalEvent {
    if ss.out.queue != [] then Output(W.Write)
    else if ss.out.hand != [] then Output(W.Enqueue)
    else Take
  }

  function Load(ss: Session): nat {
    3 * |ss.channel| + 2 * |ss.out.hand| + |ss.out.queue|
  }

  lemma OutStep(c: W.Cipher, t: Table, ss: Session)
    requires WriterUp(ss) && Load(ss) > 0 && |ss.out.hand| <= 1
    ensures var ss' := Local(c, t, ss, NextOut(ss));
            SameGoroutine(ss, ss') && WriterUp(ss') && Load(ss') < Load(ss) && |ss'.out.hand| <= 1
            && |ss'.channel| <= |ss.channel|
  {
    if ss.out.queue != [] {
      assert Local(c, t, ss, NextOut(ss)) == ss.(out := W.WriteOne(c, ss.out));
    } else if ss.out.hand != [] {
      assert Local(c, t, ss, NextOut(ss)).out.hand == [];
    } else {
      assert Local(c, t, ss, NextOut(ss)).channel == ss.channel[1..];
    }
  }

  /** Everything sent reaches the connection. */
  lemma {:induction false} DrainOut(c: W.Cipher, t: Table, ss: Session) returns (es: seq<LocalEvent>)
    requires WriterUp(ss) && |ss.out.hand| <= 1
    ensures AllOwn(es)
    ensures var ss' := LocalRun(c, t, ss, es);
            SameGoroutine(ss, ss') && WriterUp(ss') && ss'.channel == [] && ss'.out.hand == [] && ss'.out.queue == []
    decreases Load(ss)
  {
    if Load(ss) == 0 {
      es := [];
    } else {
      OutStep(c, t, ss);
      var rest := DrainOut(c, t, Local(c, t, ss, NextOut(ss)));
      es := [NextOut(ss)] + rest;
      LocalTwo(c, t, ss, NextOut(ss), rest);
    }
  }

  /** With everything drained, the Device has decoded all that was sent. */
  lemma DrainedIsSeen(c: W.Cipher, ss: Session)
    requires W.Sound(c) && ChannelOk(c, ss) && WriterUp(ss)
    requires ss.channel == [] && ss.out.hand == [] && ss.out.queue == []
    ensures W.DeviceBlobs(c, ss.out.stream) == ss.sent
  {
    W.WireIsWritten(c, ss.out);
    assert W.Line(ss.out) == ss.out.written;
    assert ss.out.taken + [] == ss.out.taken;
  }

  /** deliverNew finishes its batch, the writer side making room when it must. */
  lemma {:induction false} SendBatch(c: W.Cipher, t: Table, ss: Session) returns (es: seq<LocalEvent>)
    requires ss.pc.Sending? && ss.pc.batch != [] && WriterUp(ss) && |ss.out.hand| <= 1
    ensures AllOwn(es)
    ensures var ss' := LocalRun(c, t, ss, es);
            && ss'.pc.Waiting? && ss'.sent == Known(ss) && WriterUp(ss') && |ss'.out.hand| <= 1
            && ss'.key == ss.key && ss'.signal == ss.signal && ss'.cancelled == ss.cancelled && ss'.behind == ss.behind
    decreases |ss.pc.batch|
  {
    var room := DrainOut(c, t, ss);
    var ss1 := LocalRun(c, t, ss, room);
    var ss2 := Local(c, t, ss1, SendOne);
    assert ss2 == DoSend(ss1);
    SendKnown(ss1);
    assert Known(ss1) == Known(ss);
    LocalConcat(c, t, ss, room, [SendOne]);
    LocalOne(c, t, ss1, SendOne);
    es := room + [SendOne];
    if ss2.pc.Sending? {
      var rest := SendBatch(c, t, ss2);
      LocalConcat(c, t, ss, es, rest);
      es := es + rest;
    } else {
      assert Known(ss2) == ss2.sent;
    }
  }

  /** Back to the select with everything peeked sent. */
  lemma Settle(c: W.Cipher, t: Table, ss: Session) returns (es: seq<LocalEvent>)
    requires ss.pc.Waiting? || ss.pc.Sending?
    requires (ss.pc.Sending? ==> ss.pc.batch != []) && WriterUp(ss) && |ss.out.hand| <= 1
    ensures AllOwn(es)
    ensures var ss' := LocalRun(c, t, ss, es);
            && ss'.pc.Waiting? && ss'.sent == Known(ss) && WriterUp(ss') && |ss'.out.hand| <= 1
            && ss'.key == ss.key && ss'.signal == ss.signal && ss'.cancelled == ss.cancelled && ss'.behind == ss.behind
  {
    if ss.pc.Sending? {
      es := SendBatch(c, t, ss);
    } else {
      es := [];
      assert Known(ss) == ss.sent;
    }
  }

  /** n sends in a row, the channel having room. */
  function Sends(n: nat): seq<LocalEvent> {
    seq(n, _ => SendOne)
  }

  /** n blobs of the batch have been sent since ss. */
  predicate SentSoFar(ss: Session, ss': Session, batch: seq<Blob>, n: nat)
    requires n <= |batch|
  {
    && ss'.sent == ss.sent + batch[..n] && ss'.channel == ss.channel + batch[..n]
    && ss'.lastID == LastId(batch[..n], ss.lastID)
    && ss'.pc == if n == |batch| then Waiting else Sending(batch[n..])
  }

  lemma SendNth(c: W.Cipher, t: Table, ss: Session, ss': Session, batch: seq<Blob>, n: nat)
    requires n < |batch| && SentSoFar(ss, ss', batch, n) && |ss.channel| + n < CHANNEL_CAPACITY
    ensures SentSoFar(ss, Local(c, t, ss', SendOne), batch, n + 1)
  {
    assert batch[..n + 1] == batch[..n] + [batch[n]];
    assert batch[n..] == [batch[n]] + batch[n + 1..];
  }

  /** The session's steps through one deliverNew, cut off after n sends, send exactly what the
      router's DeliverNew sends, and leave the same mark. */
  lemma {:induction false} PassIsSteps(c: W.Cipher, t: Table, ss: Session, n: nat)
    requires ss.pc.FirstPeek? || ss.pc.Woken?
    requires |ss.channel| + n <= CHANNEL_CAPACITY && n <= |PeekAfter(t, ss.key, ss.lastID)|
    ensures var ss', pass := LocalRun(c, t, ss, [Peek(true)] + Sends(n)), Pass(t, ss.key, ss.lastID, n, false);
            && ss'.sent == ss.sent + pass && ss'.channel == ss.channel + pass
            && ss'.lastID == LastId(pass, ss.lastID)
    ensures SentSoFar(ss, LocalRun(c, t, ss, [Peek(true)] + Sends(n)), PeekAfter(t, ss.key, ss.lastID), n)
  {
    var batch := PeekAfter(t, ss.key, ss.lastID);
    var es := [Peek(true)] + Sends(n);
    if n == 0 {
      assert es == [Peek(true)];
      LocalOne(c, t, ss, Peek(true));
      assert batch[..0] == [] && batch[0..] == batch;
    } else {
      PassIsSteps(c, t, ss, n - 1);
      assert es[..|es| - 1] == [Peek(true)] + Sends(n - 1);
      SendNth(c, t, ss, LocalRun(c, t, ss, es[..|es| - 1]), batch, n - 1);
    }
  }

  // ---------------------------------------------------------------- looking again

  /** A session about to peek looks at, and sends, every row of its Inbox. */
  lemma PeekAndSend(cfg: Config, t: Table, accepted: map<int, Bytes>, ss: Session) returns (es: seq<LocalEvent>)
    requires cfg.Ok() && SessionOk(cfg, t, accepted, ss) && RowsOk(cfg, t, accepted)
    requires (ss.pc.FirstPeek? || ss.pc.Woken?) && WriterUp(ss)
    ensures AllOwn(es)
    ensures var ss' := LocalRun(cfg.cipher, t, ss, es);
            && WriterUp(ss') && ss'.key == ss.key
            && forall r :: r in t.rows && r.recipient == ss.key ==> r.ToBlob() in ss'.sent
  {
    var c := cfg.cipher;
    var ss1 := Local(c, t, ss, Peek(true));
    PeekOk(cfg, t, accepted, ss);
    forall r | r in t.rows && r.recipient == ss.key ensures r.ToBlob() in Known(ss1) {
      assert r.id <= Bound(ss1);
    }
    var rest := Settle(c, t, ss1);
    LocalTwo(c, t, ss, Peek(true), rest);
    es := [Peek(true)] + rest;
  }

  lemma WakeTakes(c: W.Cipher, t: Table, ss: Session)
    requires ss.pc.Waiting? && ss.signal
    ensures Local(c, t, ss, Wake) == ss.(pc := Woken, signal := false)
  {
  }

  /** A session with a signal waiting comes round to it. */
  lemma SignalLeads(cfg: Config, t: Table, accepted: map<int, Bytes>, ss: Session) returns (es: seq<LocalEvent>)
    requires cfg.Ok() && SessionOk(cfg, t, accepted, ss) && RowsOk(cfg, t, accepted)
    requires ss.signal && (ss.pc.Waiting? || ss.pc.Sending?) && WriterUp(ss)
    ensures AllOwn(es)
    ensures var ss' := LocalRun(cfg.cipher, t, ss, es);
            && WriterUp(ss') && ss'.key == ss.key
            && forall r :: r in t.rows && r.recipient == ss.key ==> r.ToBlob() in ss'.sent
  {
    var c := cfg.cipher;
    var first := Settle(c, t, ss);
    var ss1 := LocalRun(c, t, ss, first);
    LocalRunOk(cfg, t, accepted, ss, first);
    LocalOk(cfg, t, accepted, ss1, Wake);
    WakeTakes(c, t, ss1);
    var rest := PeekAndSend(cfg, t, accepted, Local(c, t, ss1, Wake));
    ThenRest(c, t, ss, first, Wake, rest);
    es := first + ([Wake] + rest);
  }

  /** A live session that is going to look again, or has looked far enough, sends the row. */
  lemma LookAndSend(cfg: Config, t: Table, accepted: map<int, Bytes>, ss: Session, r: Row) returns (es: seq<LocalEvent>)
    requires cfg.Ok() && SessionOk(cfg, t, accepted, ss) && RowsOk(cfg, t, accepted)
    requires Live(ss) && WriterUp(ss) && r in t.rows && r.recipient == ss.key
    requires ss.pc.FirstPeek? || ss.pc.Woken? || ss.signal || r.id <= Bound(ss)
    ensures AllOwn(es)
    ensures var ss' := LocalRun(cfg.cipher, t, ss, es); WriterUp(ss') && r.ToBlob() in ss'.sent
  {
    if ss.pc.FirstPeek? || ss.pc.Woken? {
      es := PeekAndSend(cfg, t, accepted, ss);
    } else if ss.signal {
      es := SignalLeads(cfg, t, accepted, ss);
    } else {
      es := Settle(cfg.cipher, t, ss);
    }
  }

  /** ... and so the Device decodes it. */
  lemma LookAndDeliver(cfg: Config, t: Table, accepted: map<int, Bytes>, ss: Session, r: Row)
    returns (es: seq<LocalEvent>)
    requires cfg.Ok() && SessionOk(cfg, t, accepted, ss) && RowsOk(cfg, t, accepted)
    requires Live(ss) && WriterUp(ss) && r in t.rows && r.recipient == ss.key
    requires ss.pc.FirstPeek? || ss.pc.Woken? || ss.signal || r.id <= Bound(ss)
    ensures AllOwn(es)
    ensures r.ToBlob() in W.DeviceBlobs(cfg.cipher, LocalRun(cfg.cipher, t, ss, es).out.stream)
  {
    var c := cfg.cipher;
    var first := LookAndSend(cfg, t, accepted, ss, r);
    var ss1 := LocalRun(c, t, ss, first);
    LocalRunOk(cfg, t, accepted, ss, first);
    var rest := DrainOut(c, t, ss1);
    LocalRunOk(cfg, t, accepted, ss1, rest);
    DrainedIsSeen(c, LocalRun(c, t, ss1, rest));
    LocalConcat(c, t, ss, first, rest);
    es := first + rest;
  }

  // ---------------------------------------------------------------- finishing a push

  /** Slot j holds the channel and nothing closed is before it. */
  predicate ClearTo(sessions: map<nat, Session>, slots: seq<N.Chan>, sc: F.Scan, sid: nat, j: nat) {
    && sc.cursor <= j < sc.limit && j < |slots| && slots[j] == sid
    && forall i :: sc.cursor <= i < j ==> !ClosedAt(sessions, slots[i])
  }

  /** The push will send to sid's channel, coming to no closed channel first. */
  ghost predicate WillSend(heap: seq<N.Array>, sessions: map<nat, Session>, p: Progress, sid: nat, k: Key) {
    || (p.Committed? && p.row.recipient == k)
    || (p.Fanning? && p.row.recipient == k
        && (p.scan.hand.Some? ==> !ClosedAt(sessions, p.scan.hand.value))
        && (p.scan.hand == Some(sid) || exists j: nat :: ClearTo(sessions, SlotsAt(heap, p.arr), p.scan, sid, j)))
  }

  function Remaining(p: Progress): int
    requires p.Fanning?
  {
    2 * (p.scan.limit - p.scan.cursor) + if p.scan.hand.Some? then 1 else 0
  }

  /** Only the push has moved, and perhaps another session has its signal. */
  ghost predicate Onward(s: State, s': State, pid: nat, sid: nat)
    requires sid in s.sessions && pid in s.pushes && s.pushes[pid].Fanning?
  {
    && s'.table == s.table && s'.lists == s.lists && sid in s'.sessions && s'.sessions[sid] == s.sessions[sid]
    && pid in s'.pushes && s'.pushes[pid].Fanning? && s'.pushes[pid].row == s.pushes[pid].row
    && forall ch :: ClosedAt(s'.sessions, ch) <==> ClosedAt(s.sessions, ch)
  }

  lemma ReadOnward(cfg: Config, s: State, pid: nat, sid: nat)
    requires sid in s.sessions && pid in s.pushes && s.pushes[pid].Fanning? && s.pushes[pid].scan.hand.None?
    requires s.pushes[pid].scan.cursor <= s.pushes[pid].scan.limit && !ClosedAt(s.sessions, sid)
    requires WillSend(s.lists.heap, s.sessions, s.pushes[pid], sid, s.sessions[sid].key)
    ensures var s' := Step(cfg, s, NotifyRead(pid));
            && Onward(s, s', pid, sid) && Remaining(s'.pushes[pid]) < Remaining(s.pushes[pid])
            && s'.pushes[pid].scan.cursor <= s'.pushes[pid].scan.limit
            && WillSend(s'.lists.heap, s'.sessions, s'.pushes[pid], sid, s.sessions[sid].key)
  {
    var p := s.pushes[pid];
    var slots, sc := SlotsAt(s.lists.heap, p.arr), p.scan;
    var j: nat :| ClearTo(s.sessions, slots, sc, sid, j);
    var sc' := F.Scan(sc.limit, sc.cursor + 1, Some(slots[sc.cursor]));
    assert Step(cfg, s, NotifyRead(pid)) == s.(pushes := s.pushes[pid := p.(scan := sc')]);
    assert j > sc.cursor ==> !ClosedAt(s.sessions, slots[sc.cursor]) && ClearTo(s.sessions, slots, sc', sid, j);
  }

  lemma SendOnward(cfg: Config, s: State, pid: nat, sid: nat)
    requires sid in s.sessions && Holds(s, pid) && s.pushes[pid].scan.hand != Some(sid)
    requires s.pushes[pid].scan.cursor <= s.pushes[pid].scan.limit && !ClosedAt(s.sessions, sid)
    requires WillSend(s.lists.heap, s.sessions, s.pushes[pid], sid, s.sessions[sid].key)
    ensures var s' := Step(cfg, s, NotifySend(pid));
            && Onward(s, s', pid, sid) && Remaining(s'.pushes[pid]) < Remaining(s.pushes[pid])
            && s'.pushes[pid].scan.cursor <= s'.pushes[pid].scan.limit
            && WillSend(s'.lists.heap, s'.sessions, s'.pushes[pid], sid, s.sessions[sid].key)
  {
    var p := s.pushes[pid];
    var s' := SentOn(cfg, s, pid);
    SignalKeepsStages(cfg, s, p.scan.hand.value);
    var j: nat :| ClearTo(s.sessions, SlotsAt(s.lists.heap, p.arr), p.scan, sid, j);
    assert ClearTo(s'.sessions, SlotsAt(s.lists.heap, p.arr), s'.pushes[pid].scan, sid, j);
  }

  lemma SignalKeepsStages(cfg: Config, s: State, ch: nat)
    ensures var s' := AtStep(cfg, s, ch, Signal);
            && (forall o :: ClosedAt(s'.sessions, o) <==> ClosedAt(s.sessions, o))
            && (forall o :: o in s.sessions && o != ch ==> o in s'.sessions && s'.sessions[o] == s.sessions[o])
            && (ch in s.sessions ==> s'.sessions[ch] == s.sessions[ch].(signal := true))
  {
  }

  /** The fan-out reaches a session it will send to, and changes nothing else of it. */
  lemma {:induction false} FanOutReaches(cfg: Config, s: State, pid: nat, sid: nat) returns (evs: seq<Event>)
    requires sid in s.sessions && pid in s.pushes && s.pushes[pid].Fanning?
    requires s.pushes[pid].scan.cursor <= s.pushes[pid].scan.limit && !ClosedAt(s.sessions, sid)
    requires WillSend(s.lists.heap, s.sessions, s.pushes[pid], sid, s.sessions[sid].key)
    ensures AllInternal(evs)
    ensures var s' := Run(cfg, s, evs);
            s'.table == s.table && sid in s'.sessions && s'.sessions[sid] == s.sessions[sid].(signal := true)
    decreases Remaining(s.pushes[pid])
  {
    var p := s.pushes[pid];
    var ev := if p.scan.hand.Some? then NotifySend(pid) else NotifyRead(pid);
    RunOne(cfg, s, ev);
    if p.scan.hand == Some(sid) {
      SignalKeepsStages(cfg, s, sid);
      evs := [ev];
    } else {
      if p.scan.hand.Some? { SendOnward(cfg, s, pid, sid); } else { ReadOnward(cfg, s, pid, sid); }
      var rest := FanOutReaches(cfg, Step(cfg, s, ev), pid, sid);
      RunConcat(cfg, s, [ev], rest);
      evs := [ev] + rest;
    }
  }

  /** A header just taken reaches every live session of the key: no listed channel is closed. */
  lemma BeginWillSend(s: State, pid: nat, sid: nat)
    requires ListsOk(s) && pid in s.pushes && s.pushes[pid].Committed?
    requires sid in s.sessions && Live(s.sessions[sid]) && s.sessions[sid].key == s.pushes[pid].row.recipient
    ensures var s' := BeginStep(s, pid);
            && s'.pushes[pid].Fanning? && s'.pushes[pid].scan.cursor <= s'.pushes[pid].scan.limit
            && WillSend(s.lists.heap, s.sessions, s'.pushes[pid], sid, s.sessions[sid].key)
  {
    var k, p := s.sessions[sid].key, BeginStep(s, pid).pushes[pid];
    HeaderCovers(s, pid, sid);
    var slots := SlotsAt(s.lists.heap, p.arr);
    var j: nat :| p.scan.cursor <= j < p.scan.limit && j < |slots| && slots[j] == sid;
    forall i | 0 <= i < j ensures !ClosedAt(s.sessions, slots[i]) {
      assert N.Listed(s.lists, k)[i] == slots[i];
      assert slots[i] in N.Listed(s.lists, k);
    }
    assert ClearTo(s.sessions, slots, p.scan, sid, j);
  }

  lemma PushLeads(cfg: Config, s: State, pid: nat, sid: nat) returns (evs: seq<Event>)
    requires ListsOk(s) && sid in s.sessions && Live(s.sessions[sid]) && pid in s.pushes
    requires WillSend(s.lists.heap, s.sessions, s.pushes[pid], sid, s.sessions[sid].key)
    ensures AllInternal(evs)
    ensures var s' := Run(cfg, s, evs);
            s'.table == s.table && sid in s'.sessions && s'.sessions[sid] == s.sessions[sid].(signal := true)
  {
    assert Placed(s.sessions[sid]);
    if s.pushes[pid].Fanning? {
      assert ScanOk(s.lists.heap, s.sessions, s.pushes[pid]);
      evs := FanOutReaches(cfg, s, pid, sid);
    } else {
      BeginWillSend(s, pid, sid);
      RunOne(cfg, s, BeginNotify(pid));
      var rest := FanOutReaches(cfg, BeginStep(s, pid), pid, sid);
      RunConcat(cfg, s, [BeginNotify(pid)], rest);
      evs := [BeginNotify(pid)] + rest;
    }
  }
}
