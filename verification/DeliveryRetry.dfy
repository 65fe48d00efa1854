/** When a temporary refusal is truthful: time passing, or the owner's acks, let the push in. */
module DeliveryRetry {
  import opened Base
  import opened Inbox
  import opened FrameCodec
  import opened Router
  import opened Delivery
  import opened DeliveryInvariants
  import opened DeliveryLists
  import opened DeliveryTheorems
  import L = Limits

  // ---------------------------------------------------------------- tokens

  ghost predicate TokensOk(bs: L.Buckets) {
    forall k :: k in bs ==> bs[k].tokens >= 0.0
  }

  /** Whatever the clock does, no bucket goes below zero. */
  lemma AllowTokens(p: L.Params, bs: L.Buckets, c: L.Call)
    requires p.rate >= 0.0 && p.burst >= 0.0 && TokensOk(bs)
    ensures TokensOk(L.Allow(p, bs, c, true).1)
  {
    var b := L.Find(p, L.Swept(bs, c.clock, true), c.key, c.clock.start);
    RefillTokens(p, b, c.clock.now);
  }

  lemma RefillTokens(p: L.Params, b: L.Bucket, now: real)
    requires p.rate >= 0.0 && p.burst >= 0.0 && b.tokens >= 0.0
    ensures L.Refill(p, b, now).tokens >= 0.0
  {
    if now - b.last > 0.0 {
      L.GainNonNegative(p, now - b.last);
    }
  }

  lemma OnPushTokens(cfg: Config, buckets: L.Buckets, t: Table, body: Bytes, clock: L.Clock, wall: int, fault: bool)
    requires cfg.bucket.rate >= 0.0 && cfg.bucket.burst >= 0.0 && TokensOk(buckets)
    ensures TokensOk(Push(cfg, buckets, t, body, clock, wall, fault).buckets)
  {
    if Screen(cfg.SizeLimit(), body).None? {
      AllowTokens(cfg.bucket, buckets, L.Call(body[..32], clock));
    }
  }

  /** A push leaves the buckets as they are, as OnPush leaves them, or - in a restart - empty. */
  lemma PushBuckets(cfg: Config, s: State, ev: Event)
    requires ev.PushFrame?
    ensures var bs := PushStep(cfg, s, ev.pid, ev.plain, ev.clock, ev.wall, ev.fault).buckets;
            || bs == s.buckets || bs == map[]
            || (Parse(ev.plain).Parsed?
                && bs == Push(cfg, s.buckets, s.table, Parse(ev.plain).body, ev.clock, ev.wall, ev.fault).buckets)
  {
    match Parse(ev.plain)
    case Parsed(t, body) =>
      if ev.pid !in s.pushes && t == PUSH {
        AfterPushBuckets(s, ev.pid, body, Push(cfg, s.buckets, s.table, body, ev.clock, ev.wall, ev.fault));
      }
    case _ =>
  }

  lemma AfterPushBuckets(s: State, pid: nat, body: Bytes, r: PushResult)
    ensures AfterPush(s, pid, body, r).buckets == r.buckets
  {
  }

  /** Only a push changes the buckets, and a restart empties them. */
  lemma OldBuckets(cfg: Config, s: State, ev: Event)
    requires !ev.PushFrame?
    ensures Step(cfg, s, ev).buckets == s.buckets || Step(cfg, s, ev).buckets == map[]
  {
    if SessionEvent(ev) {
      SessionEvents(cfg, s, ev);
    } else if FanEvent(ev) {
      FanEvents(cfg, s, ev);
    } else {
      match ev
      case Inbound(sid, plain, fault) => InboundBuckets(cfg, s, sid, plain, fault);
      case NotifySend(pid) => SendBuckets(cfg, s, pid);
      case ReapNow(_) =>
      case Crash =>
    }
  }

  lemma InboundBuckets(cfg: Config, s: State, sid: nat, plain: Bytes, fault: bool)
    ensures var bs := InboundStep(cfg, s, sid, plain, fault).buckets; bs == s.buckets || bs == map[]
  {
    InboundShape(cfg, s, sid, plain, fault);
  }

  lemma SendBuckets(cfg: Config, s: State, pid: nat)
    ensures SendStep(cfg, s, pid).buckets == s.buckets || SendStep(cfg, s, pid).buckets == map[]
  {
  }

  lemma StepTokens(cfg: Config, s: State, ev: Event)
    requires cfg.bucket.rate >= 0.0 && cfg.bucket.burst >= 0.0 && TokensOk(s.buckets)
    ensures TokensOk(Step(cfg, s, ev).buckets)
  {
    if ev.PushFrame? {
      PushBuckets(cfg, s, ev);
      if Parse(ev.plain).Parsed? {
        OnPushTokens(cfg, s.buckets, s.table, Parse(ev.plain).body, ev.clock, ev.wall, ev.fault);
      }
    } else {
      OldBuckets(cfg, s, ev);
    }
  }

  lemma {:induction false} RunTokens(cfg: Config, s: State, evs: seq<Event>)
    requires cfg.bucket.rate >= 0.0 && cfg.bucket.burst >= 0.0 && TokensOk(s.buckets)
    ensures TokensOk(Run(cfg, s, evs).buckets)
  {
    if evs != [] {
      RunTokens(cfg, s, evs[..|evs| - 1]);
      StepTokens(cfg, Run(cfg, s, evs[..|evs| - 1]), evs[|evs| - 1]);
    }
  }

  // ---------------------------------------------------------------- clocks

  /** What an event reads of the wall clock, and of the limiter's clock. */
  function WallOf(ev: Event): Option<int> {
    match ev
    case PushFrame(_, _, _, wall, _) => Some(wall)
    case ReapNow(wall) => Some(wall)
    case _ => None
  }

  function ClockOf(ev: Event): Option<L.Clock> {
    if ev.PushFrame? then Some(ev.clock) else None
  }

  /** b's readings are not before a's. */
  predicate NotBefore(a: Event, b: Event) {
    && (WallOf(a).Some? && WallOf(b).Some? ==> WallOf(a).value <= WallOf(b).value)
    && (ClockOf(a).Some? && ClockOf(b).Some? ==> ClockOf(a).value.now <= ClockOf(b).value.sweep)
  }

  predicate OwnOrder(ev: Event) {
    ClockOf(ev).Some? ==> ClockOf(ev).value.Ordered()
  }

  /** From event n onward no clock goes backwards. */
  ghost predicate Forward(evs: seq<Event>, n: nat) {
    && (forall j :: n <= j < |evs| ==> OwnOrder(evs[j]))
    && (forall i, j :: 0 <= i < j < |evs| && n <= j ==> NotBefore(evs[i], evs[j]))
  }

  /** No reading of these events is later. */
  predicate NoneLater(evs: seq<Event>, wall: int, now: real) {
    forall ev :: ev in evs ==>
      && (WallOf(ev).Some? ==> WallOf(ev).value <= wall)
      && (ClockOf(ev).Some? ==> ClockOf(ev).value.now <= now)
  }

  lemma {:induction false} LatestReadings(evs: seq<Event>) returns (wall: int, now: real)
    ensures NoneLater(evs, wall, now)
  {
    if evs == [] {
      wall, now := 0, 0.0;
    } else {
      var init, last := evs[..|evs| - 1], evs[|evs| - 1];
      assert evs == init + [last];
      wall, now := LatestReadings(init);
      if WallOf(last).Some? && WallOf(last).value > wall { wall := WallOf(last).value; }
      if ClockOf(last).Some? && ClockOf(last).value.now > now { now := ClockOf(last).value.now; }
    }
  }

  /** A clock late enough for the key's bucket to hold a token, and not before `from`. */
  lemma LateEnough(p: L.Params, bs: L.Buckets, k: Key, from: real) returns (clock: L.Clock)
    requires p.rate > 0.0 && p.burst >= 1.0 && TokensOk(bs)
    ensures clock.Ordered() && from <= clock.sweep && L.Allow(p, bs, L.Call(k, clock), true).0
  {
    var rested := if k in bs then bs[k].last + 1.0 / p.rate else from;
    var now := if rested >= from then rested else from;
    clock := L.Clock(now, now, now);
    if k in L.Swept(bs, clock, true) {
      L.RestedBucket(p, bs[k], now);
    }
  }

  // ---------------------------------------------------------------- room

  /** Nothing the body or the configuration rules out for good. */
  predicate Acceptable(cfg: Config, body: Bytes) {
    && Screen(cfg.SizeLimit(), body).None?
    && |body| >= 32
    && (cfg.quota.maxBytes > 0 ==> |body| - 32 <= cfg.quota.maxBytes)
    && cfg.bucket.rate > 0.0 && cfg.bucket.burst >= 1.0
  }

  predicate Cleared(t: Table, k: Key) {
    forall r :: r in t.rows ==> r.recipient != k
  }

  /** Push pid got body in. */
  predicate GotIn(s: State, pid: nat, body: Bytes) {
    pid in s.pushes && HasRow(s.pushes[pid]) && s.pushes[pid].row.recipient + s.pushes[pid].row.envelope == body
  }

  /** ... its row is stored, and expires its time to live after the given wall time. */
  predicate StoredNow(cfg: Config, s: State, pid: nat, body: Bytes, wall: int) {
    && GotIn(s, pid, body) && s.pushes[pid].row in s.table.rows
    && s.pushes[pid].row.expiresAt == Unix(wall + cfg.ttl)
  }

  lemma PushWhenCleared(cfg: Config, s: State, body: Bytes, clock: L.Clock, wall: int)
    requires Acceptable(cfg, body) && Cleared(s.table, body[..32]) && s.table.high < MAX_ID
    requires L.Allow(cfg.bucket, s.buckets, L.Call(body[..32], clock), true).0
    ensures Push(cfg, s.buckets, s.table, body, clock, wall, false).outcome.Accepted?
  {
    NoneLeft(s.table.rows, body[..32]);
  }

  lemma AfterAccepted(cfg: Config, s: State, s': State, pid: nat, body: Bytes, r: PushResult, wall: int)
    requires s' == AfterPush(s, pid, body, r) && r.outcome.Accepted? && r.outcome.row in r.table.rows
    requires body == r.outcome.row.recipient + r.outcome.row.envelope
    requires r.outcome.row.expiresAt == Unix(wall + cfg.ttl)
    ensures StoredNow(cfg, s', pid, body, wall)
  {
  }

  /** In an Inbox without rows the push is accepted at the given wall time, at some moment of the
      limiter's clock not before `from`. */
  lemma AcceptedWhenCleared(cfg: Config, s: State, pid: nat, plain: Bytes, body: Bytes, wall: int, from: real)
    returns (ev: Event)
    requires pid !in s.pushes && Parse(plain) == Parsed(PUSH, body) && Acceptable(cfg, body)
    requires TokensOk(s.buckets) && Cleared(s.table, body[..32]) && s.table.high < MAX_ID
    ensures ev.PushFrame? && ev.plain == plain && ev.wall == wall && ev.clock.Ordered() && from <= ev.clock.sweep
    ensures StoredNow(cfg, Step(cfg, s, ev), pid, body, wall)
  {
    var clock := LateEnough(cfg.bucket, s.buckets, body[..32], from);
    ev := PushFrame(pid, plain, clock, wall, false);
    ClearedIsStored(cfg, s, pid, plain, body, clock, wall);
  }

  lemma ClearedIsStored(cfg: Config, s: State, pid: nat, plain: Bytes, body: Bytes, clock: L.Clock, wall: int)
    requires pid !in s.pushes && Parse(plain) == Parsed(PUSH, body) && Acceptable(cfg, body)
    requires Cleared(s.table, body[..32]) && s.table.high < MAX_ID
    requires L.Allow(cfg.bucket, s.buckets, L.Call(body[..32], clock), true).0
    ensures StoredNow(cfg, PushStep(cfg, s, pid, plain, clock, wall, false), pid, body, wall)
  {
    PushWhenCleared(cfg, s, body, clock, wall);
    StepAccepted(cfg, s, pid, plain, body, clock, wall);
  }

  lemma StepAccepted(cfg: Config, s: State, pid: nat, plain: Bytes, body: Bytes, clock: L.Clock, wall: int)
    requires pid !in s.pushes && Parse(plain) == Parsed(PUSH, body)
    requires Push(cfg, s.buckets, s.table, body, clock, wall, false).outcome.Accepted?
    ensures StoredNow(cfg, PushStep(cfg, s, pid, plain, clock, wall, false), pid, body, wall)
  {
    var r := Push(cfg, s.buckets, s.table, body, clock, wall, false);
    AcceptedMatches(cfg, s.buckets, s.table, body, clock, wall, false);
    PushTakes(cfg, s, pid, plain, body, clock, wall, false);
    AfterAccepted(cfg, s, PushStep(cfg, s, pid, plain, clock, wall, false), pid, body, r, wall);
  }

  function Latest(rows: seq<Row>): (m: int)
    ensures forall r :: r in rows ==> r.expiresAt <= m
  {
    if rows == [] then 0
    else
      var init, last := rows[..|rows| - 1], rows[|rows| - 1];
      assert rows == init + [last];
      if last.expiresAt > Latest(init) then last.expiresAt else Latest(init)
  }

  lemma UnixAfter(m: int, wall: int)
    requires m * NANOS <= wall
    ensures m <= Unix(wall)
  {
  }

  lemma ReapClears(t: Table, wall: int)
    requires Latest(t.rows) * NANOS <= wall
    ensures Reap(t, wall) == Table([], t.high)
  {
    UnixAfter(Latest(t.rows), wall);
    NoMembers(Reap(t, wall).rows);
  }

  lemma NoMembers(rows: seq<Row>)
    ensures (forall r :: r !in rows) ==> rows == []
  {
    assert rows != [] ==> rows[0] in rows;
  }

  lemma RunTwo(cfg: Config, s: State, a: Event, b: Event)
    ensures Run(cfg, s, [a, b]) == Step(cfg, Step(cfg, s, a), b)
  {
    assert [a, b] == [a] + [b];
    RunConcat(cfg, s, [a], [b]);
    RunOne(cfg, s, a);
    RunOne(cfg, Step(cfg, s, a), b);
  }

  /** Time passing: one reap late enough, then the same push, at that wall time or later and late
      enough for the limiter, is accepted.  Neither clock goes back before the given readings. */
  lemma AcceptedAfterReap(cfg: Config, s: State, pid: nat, plain: Bytes, body: Bytes, wall: int, from: real)
    returns (reap: Event, push: Event)
    requires pid !in s.pushes && Parse(plain) == Parsed(PUSH, body) && Acceptable(cfg, body)
    requires TokensOk(s.buckets) && s.table.high < MAX_ID
    ensures reap.ReapNow? && push.PushFrame? && push.plain == plain
    ensures wall <= reap.wall <= push.wall && push.clock.Ordered() && from <= push.clock.sweep
    ensures StoredNow(cfg, Run(cfg, s, [reap, push]), pid, body, push.wall)
  {
    var late := Latest(s.table.rows) * NANOS;
    reap := ReapNow(if late >= wall then late else wall);
    ReapClears(s.table, reap.wall);
    assert Step(cfg, s, reap) == s.(table := Table([], s.table.high));
    push := AcceptedWhenCleared(cfg, Step(cfg, s, reap), pid, plain, body, reap.wall, from);
    RunTwo(cfg, s, reap, push);
  }

  // ---------------------------------------------------------------- the owner's acks

  lemma {:induction false} KeepDrops(p: Row -> bool, rows: seq<Row>, r: Row)
    requires r in rows && !p(r)
    ensures BlobCount(Keep(p, rows), r.recipient) < BlobCount(rows, r.recipient)
  {
    var init, last := rows[..|rows| - 1], rows[|rows| - 1];
    assert rows == init + [last];
    KeepShrinks(p, init, r.recipient);
    if p(last) {
      CountSnoc(Keep(p, init), last, r.recipient);
      KeepDrops(p, init, r);
    } else {
      assert Keep(p, rows) == Keep(p, init);
      if last.recipient != r.recipient {
        KeepDrops(p, init, r);
      }
    }
  }

  function AckFrame(id: int): Bytes {
    FrameBytes(DELIVER_ACK, U64(ToU64(id)))
  }

  /** The Device's ack of a blob id, as the relay's read loop takes it. */
  lemma AckDeletes(cfg: Config, s: State, sid: nat, id: int)
    requires sid in s.sessions && !s.sessions[sid].pc.Acquired? && IsI64(id)
    ensures Step(cfg, s, Inbound(sid, AckFrame(id), false))
            == s.(table := DeleteFor(s.table, s.sessions[sid].key, [id]))
  {
    var body := U64(ToU64(id));
    ParseOfFrame(DELIVER_ACK, body, []);
    assert FrameBytes(DELIVER_ACK, body) + [] == FrameBytes(DELIVER_ACK, body);
    BlobIdRoundTrip(id, [], []);
    assert body + [] == body;
  }

  predicate AcksOf(evs: seq<Event>, sid: nat) {
    forall ev :: ev in evs ==> ev.Inbound? && ev.sid == sid
  }

  /** The owner can empty its own Inbox by acking every row in it, on a live session. */
  lemma {:induction false} AckEverything(cfg: Config, s: State, sid: nat) returns (evs: seq<Event>)
    requires Valid(s.table) && sid in s.sessions && Live(s.sessions[sid])
    ensures AcksOf(evs, sid)
    ensures var s' := Run(cfg, s, evs);
            Cleared(s'.table, s.sessions[sid].key) && s' == s.(table := s'.table) && s'.table.high == s.table.high
    decreases BlobCount(s.table.rows, s.sessions[sid].key)
  {
    var k := s.sessions[sid].key;
    if Cleared(s.table, k) {
      evs := [];
    } else {
      var r :| r in s.table.rows && r.recipient == k;
      var ev := Inbound(sid, AckFrame(r.id), false);
      var s1 := Step(cfg, s, ev);
      AckDeletes(cfg, s, sid, r.id);
      KeepValid(s.table, (q: Row) => !(q.recipient == k && q.id in [r.id]));
      KeepDrops((q: Row) => !(q.recipient == k && q.id in [r.id]), s.table.rows, r);
      var rest := AckEverything(cfg, s1, sid);
      RunOne(cfg, s, ev);
      RunConcat(cfg, s, [ev], rest);
      evs := [ev] + rest;
    }
  }

  /** The owner acks what it holds; then the same push, at any wall time and late enough for the
      limiter, is accepted. */
  lemma AcceptedAfterAcks(cfg: Config, s: State, sid: nat, pid: nat, plain: Bytes, body: Bytes, wall: int, from: real)
    returns (acks: seq<Event>, push: Event)
    requires Valid(s.table) && sid in s.sessions && Live(s.sessions[sid])
    requires pid !in s.pushes && Parse(plain) == Parsed(PUSH, body) && Acceptable(cfg, body)
    requires s.sessions[sid].key == body[..32] && TokensOk(s.buckets) && s.table.high < MAX_ID
    ensures AcksOf(acks, sid) && push.PushFrame? && push.plain == plain
    ensures push.wall == wall && push.clock.Ordered() && from <= push.clock.sweep
    ensures StoredNow(cfg, Run(cfg, s, acks + [push]), pid, body, wall)
  {
    acks := AckEverything(cfg, s, sid);
    var s1 := Run(cfg, s, acks);
    push := AcceptedWhenCleared(cfg, s1, pid, plain, body, wall, from);
    RunConcat(cfg, s, acks, [push]);
    RunOne(cfg, s1, push);
  }

  // ---------------------------------------------------------------- exactly when

  /** What the limits themselves must leave room for. */
  predicate Grantable(cfg: Config, size: int) {
    cfg.bucket.burst >= 1.0 && (cfg.quota.maxBytes > 0 ==> size <= cfg.quota.maxBytes)
  }

  /** No bucket ever holds more than the burst, and nothing beyond the limits got in. */
  ghost predicate GrantsOk(cfg: Config, s: State) {
    && (forall k :: k in s.buckets ==> s.buckets[k].tokens <= cfg.bucket.burst)
    && (forall p :: p in s.pushes && HasRow(s.pushes[p]) ==> Grantable(cfg, |s.pushes[p].row.envelope|))
  }

  lemma AllowCapped(p: L.Params, bs: L.Buckets, c: L.Call)
    requires p.rate > 0.0 && forall k :: k in bs ==> bs[k].tokens <= p.burst
    ensures var (ok, next) := L.Allow(p, bs, c, true);
            (forall k :: k in next ==> next[k].tokens <= p.burst) && (ok ==> p.burst >= 1.0)
  {
  }

  lemma OnPushGrants(cfg: Config, buckets: L.Buckets, t: Table, body: Bytes, clock: L.Clock, wall: int, fault: bool)
    requires cfg.bucket.rate > 0.0 && forall k :: k in buckets ==> buckets[k].tokens <= cfg.bucket.burst
    ensures var r := Push(cfg, buckets, t, body, clock, wall, fault);
            && (forall k :: k in r.buckets ==> r.buckets[k].tokens <= cfg.bucket.burst)
            && (r.outcome.Accepted? ==> Grantable(cfg, |r.outcome.row.envelope|))
  {
    if Screen(cfg.SizeLimit(), body).None? {
      AllowCapped(cfg.bucket, buckets, L.Call(body[..32], clock));
    }
  }

  lemma StepGrants(cfg: Config, s: State, ev: Event)
    requires cfg.bucket.rate > 0.0 && GrantsOk(cfg, s)
    ensures GrantsOk(cfg, Step(cfg, s, ev))
  {
    if ev.PushFrame? {
      PushFrameGrants(cfg, s, ev.pid, ev.plain, ev.clock, ev.wall, ev.fault);
    } else {
      OtherGrants(cfg, s, ev, Step(cfg, s, ev));
    }
  }

  lemma OtherGrants(cfg: Config, s: State, ev: Event, s': State)
    requires GrantsOk(cfg, s) && !ev.PushFrame? && s' == Step(cfg, s, ev)
    ensures GrantsOk(cfg, s')
  {
    OldBuckets(cfg, s, ev);
    forall p | p in s'.pushes && HasRow(s'.pushes[p]) ensures Grantable(cfg, |s'.pushes[p].row.envelope|) {
      OldRows(cfg, s, ev, p);
    }
  }

  lemma PushFrameGrants(cfg: Config, s: State, pid: nat, plain: Bytes, clock: L.Clock, wall: int, fault: bool)
    requires cfg.bucket.rate > 0.0 && GrantsOk(cfg, s)
    ensures GrantsOk(cfg, PushStep(cfg, s, pid, plain, clock, wall, fault))
  {
    match Parse(plain)
    case Parsed(t, body) =>
      var r := Push(cfg, s.buckets, s.table, body, clock, wall, fault);
      OnPushGrants(cfg, s.buckets, s.table, body, clock, wall, fault);
      AfterPushGrants(cfg, s, pid, body, r);
    case _ =>
  }

  lemma AfterPushGrants(cfg: Config, s: State, pid: nat, body: Bytes, r: PushResult)
    requires GrantsOk(cfg, s)
    requires forall k :: k in r.buckets ==> r.buckets[k].tokens <= cfg.bucket.burst
    requires r.outcome.Accepted? ==> Grantable(cfg, |r.outcome.row.envelope|)
    ensures GrantsOk(cfg, AfterPush(s, pid, body, r))
  {
    var s' := AfterPush(s, pid, body, r);
    forall p | p in s'.pushes && HasRow(s'.pushes[p]) ensures Grantable(cfg, |s'.pushes[p].row.envelope|) {
      assert p != pid ==> s'.pushes[p] == s.pushes[p];
    }
  }

  lemma {:induction false} RunGrants(cfg: Config, s: State, evs: seq<Event>)
    requires cfg.bucket.rate > 0.0 && GrantsOk(cfg, s)
    ensures GrantsOk(cfg, Run(cfg, s, evs))
  {
    if evs != [] {
      RunGrants(cfg, s, evs[..|evs| - 1]);
      StepGrants(cfg, Run(cfg, s, evs[..|evs| - 1]), evs[|evs| - 1]);
    }
  }

  lemma ForwardTwo(evs: seq<Event>, a: Event, b: Event, wall: int, now: real)
    requires NoneLater(evs, wall, now) && a.ReapNow? && b.PushFrame?
    requires wall <= a.wall <= b.wall && b.clock.Ordered() && now <= b.clock.sweep
    ensures Forward(evs + [a, b], |evs|)
  {
    var all := evs + [a, b];
    forall i, j | 0 <= i < j < |all| && |evs| <= j ensures NotBefore(all[i], all[j]) {
      assert i < |evs| ==> all[i] in evs;
    }
  }

  /** The body gets in by a continuation of the run in which no clock goes backwards. */
  ghost predicate CanGetIn(cfg: Config, evs: seq<Event>, pid: nat, body: Bytes) {
    exists more :: Forward(evs + more, |evs|) && GotIn(Run(cfg, Init, evs + more), pid, body)
  }

  lemma GetsIn(cfg: Config, evs: seq<Event>, pid: nat, plain: Bytes, body: Bytes)
    requires cfg.bucket.rate > 0.0 && Grantable(cfg, |body| - 32)
    requires Parse(plain) == Parsed(PUSH, body) && Screen(cfg.SizeLimit(), body).None?
    requires pid !in Run(cfg, Init, evs).pushes && Run(cfg, Init, evs).table.high < MAX_ID
    ensures CanGetIn(cfg, evs, pid, body)
  {
    var wall, now := LatestReadings(evs);
    RunTokens(cfg, Init, evs);
    var reap, push := AcceptedAfterReap(cfg, Run(cfg, Init, evs), pid, plain, body, wall, now);
    RunConcat(cfg, Init, evs, [reap, push]);
    ForwardTwo(evs, reap, push, wall, now);
  }

  lemma GotInFits(cfg: Config, evs: seq<Event>, pid: nat, body: Bytes)
    requires cfg.bucket.rate > 0.0 && GotIn(Run(cfg, Init, evs), pid, body)
    ensures Grantable(cfg, |body| - 32)
  {
    RunGrants(cfg, Init, evs);
    var row := Run(cfg, Init, evs).pushes[pid].row;
    assert |row.recipient + row.envelope| == 32 + |row.envelope|;
  }

  /** With a rate limit in force and ids left, a body that the screen lets pass can still get in
      after any run, by a continuation whose clocks do not go backwards, exactly when the burst
      holds one push and the body's envelope fits the byte quota of an empty Inbox.  Every
      refusal such a body meets is marked temporary, so with a smaller burst or quota the mark is
      wrong, and otherwise it is right. */
  lemma TemporaryExactly(cfg: Config, evs: seq<Event>, pid: nat, plain: Bytes, body: Bytes)
    requires cfg.bucket.rate > 0.0
    requires Parse(plain) == Parsed(PUSH, body) && Screen(cfg.SizeLimit(), body).None?
    requires pid !in Run(cfg, Init, evs).pushes && Run(cfg, Init, evs).table.high < MAX_ID
    ensures CanGetIn(cfg, evs, pid, body) <==> Grantable(cfg, |body| - 32)
    ensures forall bs, t, clock, wall, fault ::
              var r := Push(cfg, bs, t, body, clock, wall, fault).outcome;
              r.Refused? ==> Temporary(Reason(r.why))
  {
    forall bs, t, clock, wall, fault
      ensures var r := Push(cfg, bs, t, body, clock, wall, fault).outcome; r.Refused? ==> Temporary(Reason(r.why))
    {
      PermanentExactly(cfg, bs, t, body, clock, wall, fault);
    }
    if Grantable(cfg, |body| - 32) {
      GetsIn(cfg, evs, pid, plain, body);
    }
    if more :| Forward(evs + more, |evs|) && GotIn(Run(cfg, Init, evs + more), pid, body) {
      GotInFits(cfg, evs + more, pid, body);
    }
  }
}
