/** How sessions and pushes end: exactly when a session gives its slot back, that it then can, and
    that every push under way can come to its Ack. */
module DeliveryEnds {
  import opened Base
  import opened FrameCodec
  import opened Inbox
  import opened Router
  import opened Delivery
  import opened DeliveryInvariants
  import opened DeliveryLists
  import opened DeliveryWake
  import opened DeliveryTheorems
  import opened DeliveryProgress
  import W = SessionWriter
  import N = Notifier
  import C = SessionCap

  /** Steps that a session's own goroutines take: no signal, no push and no fan-out among them. */
  predicate OwnEvents(evs: seq<Event>, sid: nat) {
    forall ev :: ev in evs ==> ev == Teardown(sid) || (ev.At? && ev.sid == sid && ev.e != Signal && ev.e != Cancel)
  }

  // ---------------------------------------------------------------- an ended context

  /** Back to the select: a pending peek comes out either way, and a batch is given up. */
  lemma BackToSelect(c: W.Cipher, t: Table, ss: Session, ok: bool) returns (es: seq<LocalEvent>)
    requires ss.cancelled && !ss.pc.Acquired? && !ss.pc.Done?
    ensures forall e :: e in es ==> e == Peek(ok) || e == Abandon
    ensures var ss' := LocalRun(c, t, ss, es); ss'.pc.Waiting? && ss'.cancelled && ss'.key == ss.key
  {
    if ss.pc.Waiting? {
      es := [];
    } else if ss.pc.Sending? {
      es := [Abandon];
      LocalOne(c, t, ss, Abandon);
    } else {
      var ss1 := Local(c, t, ss, Peek(ok));
      es := [Peek(ok)];
      LocalOne(c, t, ss, Peek(ok));
      if ss1.pc.Sending? {
        LocalTwo(c, t, ss, Peek(ok), [Abandon]);
        LocalOne(c, t, ss1, Abandon);
        es := [Peek(ok)] + [Abandon];
      }
    }
  }

  /** The session has left: it is done, and its key has one slot fewer in use.  Store and pushes
      are as before. */
  predicate HasLeft(cfg: Config, s: State, s': State, sid: nat)
    requires sid in s.sessions
  {
    var k := s.sessions[sid].key;
    && sid in s'.sessions && s'.sessions[sid].pc.Done? && s'.sessions[sid].key == k
    && s'.table == s.table && s'.pushes == s.pushes
    && (cfg.sessionMax > 0 ==> C.Slots(s'.active, k) == C.Slots(s.active, k) - 1)
  }

  lemma LeavesNow(cfg: Config, s: State, sid: nat)
    requires SlotsOk(cfg, s) && sid in s.sessions && s.sessions[sid].pc.Waiting? && s.sessions[sid].cancelled
    ensures HasLeft(cfg, s, Step(cfg, s, Teardown(sid)), sid)
    ensures forall o :: o in Step(cfg, s, Teardown(sid)).sessions <==> o in s.sessions
    ensures forall l :: l != s.sessions[sid].key ==>
                          C.Slots(Step(cfg, s, Teardown(sid)).active, l) == C.Slots(s.active, l)
  {
    assert sid in Holders(s.sessions, s.sessions[sid].key);
  }

  /** Steps on its own to the select leave everything else as it is. */
  lemma OwnToSelect(cfg: Config, s: State, sid: nat, ok: bool) returns (evs: seq<Event>)
    requires sid in s.sessions && s.sessions[sid].cancelled
    requires !s.sessions[sid].pc.Acquired? && !s.sessions[sid].pc.Done?
    ensures OwnEvents(evs, sid)
    ensures var s' := Run(cfg, s, evs);
            && sid in s'.sessions && s' == s.(sessions := s.sessions[sid := s'.sessions[sid]])
            && s'.sessions[sid].pc.Waiting? && s'.sessions[sid].cancelled
            && s'.sessions[sid].key == s.sessions[sid].key
  {
    var es := BackToSelect(cfg.cipher, s.table, s.sessions[sid], ok);
    LiftRuns(cfg, s, sid, es);
    evs := Lift(sid, es);
    forall ev | ev in evs ensures ev.At? && ev.sid == sid && ev.e != Signal && ev.e != Cancel {
      var i :| 0 <= i < |evs| && evs[i] == ev;
      assert es[i] in es;
    }
  }

  /** In every reachable state: a session that has subscribed and whose context has ended leaves by
      its own steps alone, however a peek still pending comes out.  Its slot is then free: a
      connection of the Device that it kept out gets in. */
  lemma EndedSessionLeaves(cfg: Config, s: State, sid: nat, ok: bool) returns (evs: seq<Event>)
    requires Inv(cfg, s) && sid in s.sessions && s.sessions[sid].cancelled
    requires !s.sessions[sid].pc.Acquired? && !s.sessions[sid].pc.Done?
    ensures OwnEvents(evs, sid) && HasLeft(cfg, s, Run(cfg, s, evs), sid)
    ensures forall l :: l != s.sessions[sid].key ==>
                          C.Slots(Run(cfg, s, evs).active, l) == C.Slots(s.active, l)
    ensures forall o: nat :: o !in s.sessions ==>
                               o in Run(cfg, s, evs + [Connect(o, s.sessions[sid].key)]).sessions
  {
    var first := OwnToSelect(cfg, s, sid, ok);
    var s1 := Run(cfg, s, first);
    KeptSlots(cfg, s, sid, s1.sessions[sid]);
    LeavesNow(cfg, s1, sid);
    RunConcat(cfg, s, first, [Teardown(sid)]);
    RunOne(cfg, s1, Teardown(sid));
    evs := first + [Teardown(sid)];
    forall o: nat | o !in s.sessions ensures o in Run(cfg, s, evs + [Connect(o, s.sessions[sid].key)]).sessions {
      RoomToConnect(cfg, s, evs, o, s.sessions[sid].key);
    }
  }

  lemma RoomToConnect(cfg: Config, s: State, evs: seq<Event>, o: nat, k: Key)
    requires var s' := Run(cfg, s, evs);
             o !in s'.sessions && (cfg.sessionMax > 0 ==> C.Slots(s'.active, k) < cfg.sessionMax)
    ensures o in Run(cfg, s, evs + [Connect(o, k)]).sessions
  {
    RunConcat(cfg, s, evs, [Connect(o, k)]);
    RunOne(cfg, Run(cfg, s, evs), Connect(o, k));
  }

  /** A connect whose Subscribe fails gives its slot back at once. */
  lemma FailedSubscribeLeaves(cfg: Config, s: State, sid: nat, spare: nat)
    requires SlotsOk(cfg, s) && sid in s.sessions && s.sessions[sid].pc.Acquired?
    ensures HasLeft(cfg, s, Run(cfg, s, [Subscribe(sid, false, spare)]), sid)
  {
    RunOne(cfg, s, Subscribe(sid, false, spare));
    assert sid in Holders(s.sessions, s.sessions[sid].key);
  }

  // ---------------------------------------------------------------- and in no other case

  /** The session is done in both states or in neither. */
  predicate StillThere(s: State, s': State, sid: nat) {
    sid in s.sessions && sid in s'.sessions ==> (s'.sessions[sid].pc.Done? <==> s.sessions[sid].pc.Done?)
  }

  lemma AtStays(cfg: Config, s: State, o: nat, e: LocalEvent, sid: nat)
    ensures StillThere(s, AtStep(cfg, s, o, e), sid)
  {
  }

  lemma ListStays(s: State, o: nat, sid: nat)
    ensures StillThere(s, UnsubscribeStep(s, o), sid) && StillThere(s, CloseStep(s, o), sid)
  {
  }

  lemma InboundStays(cfg: Config, s: State, o: nat, plain: Bytes, fault: bool, sid: nat)
    ensures StillThere(s, InboundStep(cfg, s, o, plain, fault), sid)
  {
    InboundShape(cfg, s, o, plain, fault);
  }

  lemma SendStays(cfg: Config, s: State, p: nat, sid: nat)
    ensures StillThere(s, SendStep(cfg, s, p), sid)
  {
    if Holds(s, p) {
      AtStays(cfg, s, s.pushes[p].scan.hand.value, Signal, sid);
    }
  }

  lemma OthersStay(cfg: Config, s: State, ev: Event, sid: nat)
    requires !SessionEvent(ev)
    ensures StillThere(s, Step(cfg, s, ev), sid)
  {
    match ev
    case Inbound(o, plain, fault) => InboundStays(cfg, s, o, plain, fault, sid);
    case PushFrame(p, plain, clock, wall, fault) => PushKeepsSessions(cfg, s, p, plain, clock, wall, fault);
    case NotifySend(p) => SendStays(cfg, s, p, sid);
    case _ =>
  }

  /** No step but these two ends a session: its goroutine returns at the select once its context has
      ended, or its Subscribe fails. */
  lemma LeavesExactly(cfg: Config, s: State, ev: Event, sid: nat)
    requires sid in s.sessions && !s.sessions[sid].pc.Done? && sid in Step(cfg, s, ev).sessions
    ensures Step(cfg, s, ev).sessions[sid].pc.Done? <==>
            || (ev == Teardown(sid) && s.sessions[sid].pc.Waiting? && s.sessions[sid].cancelled)
            || (ev.Subscribe? && ev.sid == sid && !ev.ok && s.sessions[sid].pc.Acquired?)
  {
    if SessionEvent(ev) {
      match ev
      case At(o, e) => AtStays(cfg, s, o, e, sid);
      case Unsubscribe(o) => ListStays(s, o, sid);
      case CloseChannel(o) => ListStays(s, o, sid);
      case _ =>
    } else {
      OthersStay(cfg, s, ev, sid);
    }
  }

  // ---------------------------------------------------------------- its subscription

  lemma UnsubscribeLeaves(s: State, sid: nat)
    requires ListsOk(s) && sid in s.sessions && s.sessions[sid].cancelled && s.sessions[sid].stage.Listening?
    ensures var s', k := UnsubscribeStep(s, sid), s.sessions[sid].key;
            && sid in s'.sessions && s'.sessions[sid].stage.Removed?
            && forall ch :: ch in N.Listed(s'.lists, k) <==> ch in N.Listed(s.lists, k) && ch != sid
  {
    var k := s.sessions[sid].key;
    var chs := N.Listed(s.lists, k);
    assert sid in chs;
    N.UnsubscribedLists(s.lists, k, sid, k);
    N.WithoutKeepsOthers(chs, N.IndexOf(chs, sid));
  }

  lemma CloseLeaves(s: State, sid: nat)
    requires sid in s.sessions && s.sessions[sid].stage.Removed?
    ensures var s' := CloseStep(s, sid);
            sid in s'.sessions && s'.sessions[sid].stage.Closed? && s'.lists == s.lists
  {
  }

  /** Once its context has ended a session's channel leaves its key's list, every other channel of
      which stays, and is closed. */
  lemma EndedSubscriptionCloses(cfg: Config, s: State, sid: nat) returns (evs: seq<Event>)
    requires ListsOk(s) && sid in s.sessions && s.sessions[sid].cancelled && s.sessions[sid].stage.Listening?
    ensures |evs| == 2 && evs[0] == Unsubscribe(sid) && evs[1] == CloseChannel(sid)
    ensures var s', k := Run(cfg, s, evs), s.sessions[sid].key;
            && sid in s'.sessions && s'.sessions[sid].stage.Closed?
            && forall ch :: ch in N.Listed(s'.lists, k) <==> ch in N.Listed(s.lists, k) && ch != sid
  {
    var s1 := UnsubscribeStep(s, sid);
    UnsubscribeLeaves(s, sid);
    CloseLeaves(s1, sid);
    evs := [Unsubscribe(sid)] + [CloseChannel(sid)];
    RunOne(cfg, s, Unsubscribe(sid));
    RunConcat(cfg, s, [Unsubscribe(sid)], [CloseChannel(sid)]);
    RunOne(cfg, s1, CloseChannel(sid));
  }

  // ---------------------------------------------------------------- a push under way

  /** The steps of one push's own goroutine. */
  predicate PushEvents(evs: seq<Event>, pid: nat) {
    forall ev :: ev in evs ==>
      ev == BeginNotify(pid) || ev == NotifyRead(pid) || ev == NotifySend(pid) || ev == AckPush(pid)
  }

  /** The push has a row and is at most this far from its Ack. */
  predicate Steps(p: Progress, n: int) {
    match p
    case Committed(_) => false
    case Fanning(_, _, sc) =>
      sc.cursor <= sc.limit && n == 2 * (sc.limit - sc.cursor) + (if sc.hand.Some? then 1 else 0) + 2
    case Notified(_) => n == 1
    case Acked(_) => n == 0
    case Declined(_) => false
  }

  predicate AtHit(s: State, pid: nat) {
    Holds(s, pid) && ClosedIn(s, s.pushes[pid].scan.hand.value)
  }

  predicate AckedWith(s: State, pid: nat, row: Row) {
    pid in s.pushes && s.pushes[pid] == Acked(row)
  }

  /** The goroutine's next step. */
  function NextStep(pid: nat, p: Progress): Event {
    match p
    case Fanning(_, _, sc) => if sc.hand.Some? then NotifySend(pid) else NotifyRead(pid)
    case _ => AckPush(pid)
  }

  lemma NextSteps(cfg: Config, s: State, pid: nat, n: int) returns (m: int)
    requires pid in s.pushes && Steps(s.pushes[pid], n) && n > 0 && !AtHit(s, pid)
    ensures var s' := Step(cfg, s, NextStep(pid, s.pushes[pid]));
            && pid in s'.pushes && HasRow(s'.pushes[pid]) && s'.pushes[pid].row == s.pushes[pid].row
            && 0 <= m < n && Steps(s'.pushes[pid], m)
  {
    var p := s.pushes[pid];
    var s' := Step(cfg, s, NextStep(pid, p));
    m := if p.Fanning? && s'.pushes[pid].Fanning? then n - 1 else if p.Fanning? then 1 else 0;
  }

  lemma {:induction false} StepsFinish(cfg: Config, s: State, pid: nat, n: int) returns (evs: seq<Event>)
    requires pid in s.pushes && Steps(s.pushes[pid], n) && n >= 0 && HasRow(s.pushes[pid])
    ensures PushEvents(evs, pid)
    ensures AckedWith(Run(cfg, s, evs), pid, s.pushes[pid].row) || AtHit(Run(cfg, s, evs), pid)
    decreases n
  {
    if n == 0 || AtHit(s, pid) {
      evs := [];
    } else {
      var ev := NextStep(pid, s.pushes[pid]);
      var m := NextSteps(cfg, s, pid, n);
      var rest := StepsFinish(cfg, Step(cfg, s, ev), pid, m);
      RunOne(cfg, s, ev);
      RunConcat(cfg, s, [ev], rest);
      evs := [ev] + rest;
    }
  }

  /** In every reachable state: a push whose row is stored comes to its Ack by its own steps alone,
      or to a send that would hit a closed channel. */
  lemma PushFinishes(cfg: Config, s: State, pid: nat) returns (evs: seq<Event>)
    requires ListsOk(s) && pid in s.pushes && HasRow(s.pushes[pid])
    ensures PushEvents(evs, pid)
    ensures AckedWith(Run(cfg, s, evs), pid, s.pushes[pid].row) || AtHit(Run(cfg, s, evs), pid)
  {
    if s.pushes[pid].Committed? {
      var s1 := BeginStep(s, pid);
      var n := StepsLeft(s1.pushes[pid]);
      var rest := StepsFinish(cfg, s1, pid, n);
      RunOne(cfg, s, BeginNotify(pid));
      RunConcat(cfg, s, [BeginNotify(pid)], rest);
      evs := [BeginNotify(pid)] + rest;
    } else {
      assert s.pushes[pid].Fanning? ==> ScanOk(s.lists.heap, s.sessions, s.pushes[pid]);
      evs := StepsFinish(cfg, s, pid, StepsLeft(s.pushes[pid]));
    }
  }

  function StepsLeft(p: Progress): (n: int)
    ensures HasRow(p) && !p.Committed? && (p.Fanning? ==> p.scan.cursor <= p.scan.limit) ==> Steps(p, n) && n >= 0
  {
    match p
    case Fanning(_, _, sc) => 2 * (sc.limit - sc.cursor) + (if sc.hand.Some? then 1 else 0) + 2
    case Notified(_) => 1
    case _ => 0
  }

  // ---------------------------------------------------------------- a push that has been answered

  predicate Answered(s: State, pid: nat, p: Progress) {
    pid in s.pushes && s.pushes[pid] == p && (p.Acked? || p.Declined?)
  }

  lemma RestartKeeps(s: State, pid: nat, p: Progress)
    requires Answered(s, pid, p)
    ensures Answered(Restarted(s), pid, p)
  {
  }

  lemma FanOutKeeps(cfg: Config, s: State, ev: Event, pid: nat, p: Progress)
    requires Answered(s, pid, p) && FanOutEvent(ev)
    ensures Answered(Step(cfg, s, ev), pid, p)
  {
    RestartKeeps(s, pid, p);
  }

  lemma PushKeeps(cfg: Config, s: State, ev: Event, pid: nat, p: Progress)
    requires Answered(s, pid, p) && ev.PushFrame?
    ensures Answered(Step(cfg, s, ev), pid, p)
  {
    RestartKeeps(s, pid, p);
    if ev.pid !in s.pushes {
      match Parse(ev.plain)
      case Parsed(t, body) =>
        AfterPushOthers(s, ev.pid, body, Push(cfg, s.buckets, s.table, body, ev.clock, ev.wall, ev.fault), pid);
      case _ =>
    }
  }

  lemma AfterPushOthers(s: State, o: nat, body: Bytes, r: PushResult, pid: nat)
    requires pid in s.pushes && o != pid
    ensures pid in AfterPush(s, o, body, r).pushes && AfterPush(s, o, body, r).pushes[pid] == s.pushes[pid]
  {
  }

  lemma StepAnswered(cfg: Config, s: State, ev: Event, pid: nat, p: Progress)
    requires Answered(s, pid, p)
    ensures Answered(Step(cfg, s, ev), pid, p)
  {
    RestartKeeps(s, pid, p);
    if SessionEvent(ev) {
      SessionEvents(cfg, s, ev);
    } else if FanOutEvent(ev) {
      FanOutKeeps(cfg, s, ev, pid, p);
    } else if ev.PushFrame? {
      PushKeeps(cfg, s, ev, pid, p);
    } else if ev.Inbound? {
      InboundSource(cfg, s, ev.sid, ev.plain, ev.fault);
    }
  }

  /** What a push has been answered is final, restarts included. */
  lemma {:induction false} AnswerIsFinal(cfg: Config, s: State, evs: seq<Event>, pid: nat, p: Progress)
    requires Answered(s, pid, p)
    ensures Answered(Run(cfg, s, evs), pid, p)
  {
    if evs != [] {
      AnswerIsFinal(cfg, s, evs[..|evs| - 1], pid, p);
      StepAnswered(cfg, Run(cfg, s, evs[..|evs| - 1]), evs[|evs| - 1], pid, p);
    }
  }
}
