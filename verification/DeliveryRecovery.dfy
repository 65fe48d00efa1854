/** What a Device does about a wake-up it did not get: it connects again. */
module DeliveryRecovery {
  import opened Base
  import opened Inbox
  import opened Router
  import opened Delivery
  import opened DeliverySessions
  import opened DeliveryLists
  import opened DeliveryWake
  import opened DeliveryProgress
  import opened DeliveryReach
  import W = SessionWriter
  import C = SessionCap

  /** A session that has subscribed and sent nothing yet. */
  predicate Fresh(ss: Session) {
    ss.pc.FirstPeek? && ss.lastID == 0 && ss.sent == [] && ss.out == W.NewOut && !ss.cancelled
  }

  /** Its first peek, and the sends that follow, send its whole Inbox. */
  lemma FreshSends(cfg: Config, t: Table, accepted: map<int, Bytes>, ss: Session) returns (es: seq<LocalEvent>)
    requires cfg.Ok() && SessionOk(cfg, t, accepted, ss) && RowsOk(cfg, t, accepted) && Fresh(ss)
    ensures AllOwn(es)
    ensures var ss' := LocalRun(cfg.cipher, t, ss, es);
            && ss'.sent == PeekAfter(t, ss.key, 0) && SentAll(ss')
            && SessionOk(cfg, t, accepted, ss')
  {
    FreshPeeks(cfg, t, accepted, ss);
    var rest := PeekedSends(cfg, t, accepted, Local(cfg.cipher, t, ss, Peek(true)));
    LocalTwo(cfg.cipher, t, ss, Peek(true), rest);
    es := [Peek(true)] + rest;
  }

  predicate Peeked(ss: Session) {
    && (ss.pc.Waiting? || (ss.pc.Sending? && ss.pc.batch != []))
    && !ss.cancelled && WriterUp(ss) && |ss.out.hand| <= 1
  }

  lemma PeekedSends(cfg: Config, t: Table, accepted: map<int, Bytes>, ss: Session) returns (es: seq<LocalEvent>)
    requires cfg.Ok() && SessionOk(cfg, t, accepted, ss) && RowsOk(cfg, t, accepted) && Peeked(ss)
    ensures AllOwn(es)
    ensures var ss' := LocalRun(cfg.cipher, t, ss, es);
            ss'.sent == Known(ss) && SentAll(ss') && SessionOk(cfg, t, accepted, ss')
  {
    es := Settle(cfg.cipher, t, ss);
    LocalRunOk(cfg, t, accepted, ss, es);
  }

  lemma FreshPeeks(cfg: Config, t: Table, accepted: map<int, Bytes>, ss: Session)
    requires cfg.Ok() && SessionOk(cfg, t, accepted, ss) && RowsOk(cfg, t, accepted) && Fresh(ss)
    ensures var ss' := Local(cfg.cipher, t, ss, Peek(true));
            && SessionOk(cfg, t, accepted, ss') && Known(ss') == PeekAfter(t, ss.key, 0)
            && Peeked(ss')
  {
    LocalOk(cfg, t, accepted, ss, Peek(true));
    FirstKnown(t, ss);
  }

  /** Live, at the select, with the writer up. */
  predicate SentAll(ss: Session) {
    ss.pc.Waiting? && !ss.cancelled && WriterUp(ss) && |ss.out.hand| <= 1
  }

  /** ... and what is sent reaches the Device. */
  lemma SentArrives(cfg: Config, t: Table, accepted: map<int, Bytes>, ss: Session) returns (es: seq<LocalEvent>)
    requires cfg.Ok() && SessionOk(cfg, t, accepted, ss) && RowsOk(cfg, t, accepted) && SentAll(ss)
    ensures AllOwn(es)
    ensures var ss' := LocalRun(cfg.cipher, t, ss, es);
            Live(ss') && W.DeviceBlobs(cfg.cipher, ss'.out.stream) == ss.sent
  {
    es := DrainOut(cfg.cipher, t, ss);
    LocalRunOk(cfg, t, accepted, ss, es);
    DrainedIsSeen(cfg.cipher, LocalRun(cfg.cipher, t, ss, es));
  }

  lemma FreshDelivers(cfg: Config, t: Table, accepted: map<int, Bytes>, ss: Session) returns (es: seq<LocalEvent>)
    requires cfg.Ok() && SessionOk(cfg, t, accepted, ss) && RowsOk(cfg, t, accepted) && Fresh(ss)
    ensures AllOwn(es)
    ensures var ss' := LocalRun(cfg.cipher, t, ss, es);
            Live(ss') && W.DeviceBlobs(cfg.cipher, ss'.out.stream) == PeekAfter(t, ss.key, 0)
  {
    var first := FreshSends(cfg, t, accepted, ss);
    var rest := SentArrives(cfg, t, accepted, LocalRun(cfg.cipher, t, ss, first));
    LocalConcat(cfg.cipher, t, ss, first, rest);
    es := first + rest;
  }

  lemma FirstKnown(t: Table, ss: Session)
    requires Fresh(ss)
    ensures Known(DoPeek(t, ss, true)) == PeekAfter(t, ss.key, 0)
  {
    assert [] + PeekAfter(t, ss.key, 0) == PeekAfter(t, ss.key, 0);
  }

  /** A connection, and then only steps of the relay's own. */
  predicate ConnectsThen(evs: seq<Event>, sid: nat, k: Key) {
    evs != [] && evs[0] == Connect(sid, k) && AllInternal(evs[1..])
  }

  lemma ThenMore(evs: seq<Event>, more: seq<Event>, sid: nat, k: Key)
    requires ConnectsThen(evs, sid, k) && AllInternal(more)
    ensures ConnectsThen(evs + more, sid, k)
  {
    assert (evs + more)[1..] == evs[1..] + more;
  }

  /** A connection that gets a slot subscribes. */
  lemma Joins(cfg: Config, s: State, sid: nat, k: Key) returns (evs: seq<Event>)
    requires sid !in s.sessions && C.Acquire(cfg.sessionMax, s.active, k).0
    ensures ConnectsThen(evs, sid, k)
    ensures var s' := Run(cfg, s, evs);
            && s'.table == s.table && sid in s'.sessions && Fresh(s'.sessions[sid]) && s'.sessions[sid].key == k
  {
    RunOne(cfg, s, Connect(sid, k));
    RunConcat(cfg, s, [Connect(sid, k)], [Subscribe(sid, true, 0)]);
    RunOne(cfg, Step(cfg, s, Connect(sid, k)), Subscribe(sid, true, 0));
    evs := [Connect(sid, k)] + [Subscribe(sid, true, 0)];
    assert evs[1..] == [Subscribe(sid, true, 0)];
  }

  /** The Device of the session has decoded exactly what the Inbox holds. */
  predicate HasInbox(cfg: Config, t: Table, s: State, sid: nat, k: Key) {
    && s.table == t && sid in s.sessions && Live(s.sessions[sid])
    && W.DeviceBlobs(cfg.cipher, s.sessions[sid].out.stream) == PeekAfter(t, k, 0)
  }

  lemma FreshGetsInbox(cfg: Config, s: State, sid: nat) returns (evs: seq<Event>)
    requires cfg.Ok() && Inv(cfg, s) && sid in s.sessions && Fresh(s.sessions[sid])
    ensures AllInternal(evs) && HasInbox(cfg, s.table, Run(cfg, s, evs), sid, s.sessions[sid].key)
  {
    var es := FreshDelivers(cfg, s.table, s.accepted, s.sessions[sid]);
    OwnSteps(sid, es);
    LiftRuns(cfg, s, sid, es);
    evs := Lift(sid, es);
  }

  lemma ReconnectGetsInbox(cfg: Config, s: State, sid: nat, k: Key) returns (more: seq<Event>)
    requires cfg.Ok() && Inv(cfg, s) && sid !in s.sessions && C.Acquire(cfg.sessionMax, s.active, k).0
    ensures ConnectsThen(more, sid, k)
    ensures HasInbox(cfg, s.table, Run(cfg, s, more), sid, k)
  {
    var first := Joins(cfg, s, sid, k);
    RunInv(cfg, s, first);
    var rest := FreshGetsInbox(cfg, Run(cfg, s, first), sid);
    RunConcat(cfg, s, first, rest);
    ThenMore(first, rest, sid, k);
    more := first + rest;
  }

  /** After any run whatever, with wake-ups lost in it or not: a new connection of the Device that
      gets a slot needs only the relay's own steps to decode exactly the rows its Inbox holds, in
      the order of their ids. */
  lemma ReconnectRecovers(cfg: Config, evs: seq<Event>, sid: nat, k: Key) returns (more: seq<Event>)
    requires cfg.Ok()
    requires var s := Run(cfg, Init, evs); sid !in s.sessions && C.Acquire(cfg.sessionMax, s.active, k).0
    ensures ConnectsThen(more, sid, k)
    ensures var s, s' := Run(cfg, Init, evs), Run(cfg, Init, evs + more);
            && HasInbox(cfg, s.table, s', sid, k)
            && forall r :: r in s.table.rows && r.recipient == k ==> Delivers(cfg, Init, evs + more, sid, r)
  {
    var s := Run(cfg, Init, evs);
    InitInv(cfg);
    RunInv(cfg, Init, evs);
    more := ReconnectGetsInbox(cfg, s, sid, k);
    RunConcat(cfg, Init, evs, more);
    WholeInbox(cfg, s, k);
  }

  lemma WholeInbox(cfg: Config, s: State, k: Key)
    requires Inv(cfg, s)
    ensures forall r :: r in s.table.rows && r.recipient == k ==> r.ToBlob() in PeekAfter(s.table, k, 0)
  {
    PeekExact(s.table, k, 0);
    assert forall r :: r in s.table.rows ==> r.id > 0;
  }
}
