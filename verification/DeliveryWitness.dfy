/**
  Runs that show what the relay does lose, under any configuration that takes the push and the
  sessions.  Each leaves a live session with a row it has not seen and nothing that would make it
  look, or stops the process in the middle of a fan-out, or refuses for good what it calls
  temporary.
 */
module DeliveryWitness {
  import opened Base
  import opened Inbox
  import opened FrameCodec
  import opened Router
  import opened Delivery
  import opened DeliverySessions
  import opened DeliveryLists
  import opened DeliveryWake
  import opened DeliveryProgress
  import opened DeliveryReach
  import opened DeliveryStuck
  import opened DeliveryRetry
  import W = SessionWriter
  import E = EnvelopeWire
  import N = Notifier
  import L = Limits
  import C = SessionCap
  import F = FanOut

  // ---------------------------------------------------------------- one push

  /** A configuration, a Device, and when its push comes. */
  datatype Scene = Scene(cfg: Config, k: Key, clock: L.Clock, wall: int)

  /** An envelope that addresses k. */
  function Envelope(k: Key): Bytes {
    [26, 32] + k
  }

  function Body(x: Scene): Bytes {
    x.k + Envelope(x.k)
  }

  /** The row its push makes in an empty store. */
  function RowOf(x: Scene): Row {
    Row(1, x.k, Envelope(x.k), Unix(x.wall + x.cfg.ttl))
  }

  function ThePush(x: Scene): Event {
    PushFrame(0, FrameBytes(PUSH, Body(x)), x.clock, x.wall, false)
  }

  /** The configuration rules out neither the push, whose envelope has 34 bytes, nor n sessions. */
  predicate Suits(cfg: Config, n: nat) {
    && cfg.bucket.rate > 0.0 && cfg.SizeLimit() >= 34 && Grantable(cfg, 34)
    && (cfg.sessionMax <= 0 || n <= cfg.sessionMax)
  }

  /** A single recipient_pub field is an envelope. */
  lemma EnvelopeAddresses(k: Key)
    ensures E.Recipient(Envelope(k)) == Some(k)
  {
    var f := E.Field([26], E.Delimited([32], k));
    assert E.Groups([]) == 0 && E.Groups([26]) == 26 && E.Groups([32]) == 32;
    assert f.Valid();
    assert E.PrintAll([f]) == Envelope(k) by {
      assert E.PrintAll([]) == [] && [f][1..] == [];
      assert ([26] + ([32] + k)) + [] == [26, 32] + k;
    }
    E.DecodeOfPrint([f]);
    assert E.Recipients([f]) == [k] by {
      assert [f][1..] == [] && [k] + [] == [k];
    }
  }

  lemma BodyPassesScreen(x: Scene)
    ensures |Body(x)| == 66 && Body(x)[..32] == x.k && Body(x)[32..] == Envelope(x.k)
    ensures Screen(x.cfg.SizeLimit(), Body(x)).None? <==> x.cfg.SizeLimit() >= 34
  {
    EnvelopeAddresses(x.k);
    assert Body(x)[..32] == x.k && Body(x)[32..] == Envelope(x.k);
  }

  /** A new bucket is full. */
  lemma FirstIsAllowed(p: L.Params, c: L.Call)
    requires p.rate > 0.0
    ensures L.Allow(p, map[], c, true).0 <==> p.burst >= 1.0
  {
    if c.clock.now - c.clock.start > 0.0 {
      L.GainNonNegative(p, c.clock.now - c.clock.start);
    }
  }

  function BucketsOf(x: Scene): L.Buckets {
    L.Allow(x.cfg.bucket, map[], L.Call(x.k, x.clock), true).1
  }

  function Taken(x: Scene): PushResult {
    PushResult(Accepted(RowOf(x)), BucketsOf(x), Table([RowOf(x)], 1))
  }

  lemma PushTaken(x: Scene)
    requires Suits(x.cfg, 0)
    ensures Push(x.cfg, map[], Empty, Body(x), x.clock, x.wall, false) == Taken(x)
  {
    BodyPassesScreen(x);
    FirstIsAllowed(x.cfg.bucket, L.Call(x.k, x.clock));
    NoneLeft(Empty.rows, x.k);
    assert Empty.rows + [RowOf(x)] == [RowOf(x)];
  }

  lemma FrameParses(x: Scene)
    ensures Parse(FrameBytes(PUSH, Body(x))) == Parsed(PUSH, Body(x))
  {
    BodyPassesScreen(x);
    ParseOfFrame(PUSH, Body(x), []);
    assert FrameBytes(PUSH, Body(x)) + [] == FrameBytes(PUSH, Body(x));
  }

  // ---------------------------------------------------------------- states of these runs

  /** The slots that n sessions of the Device hold. */
  function Held(x: Scene, n: nat): C.Active {
    if x.cfg.sessionMax <= 0 || n == 0 then map[] else map[x.k := n]
  }

  /** Sessions that have looked at an empty Inbox, and no push yet. */
  function Quiet(x: Scene, sessions: map<nat, Session>, lists: N.Lists): State {
    State(Empty, map[], Held(x, |sessions|), lists, sessions, map[], map[])
  }

  /** The one push under way. */
  function Under(x: Scene, sessions: map<nat, Session>, lists: N.Lists, p: Progress): State {
    State(Table([RowOf(x)], 1), BucketsOf(x), Held(x, |sessions|), lists, sessions, map[0 := p], map[1 := Body(x)])
  }

  /** A session at its select that has peeked an empty Inbox. */
  function Idle(k: Key): Session {
    Session(k, Waiting, Listening, 0, false, false, false, [], W.NewOut, [])
  }

  // ---------------------------------------------------------------- a list that grows as append makes it

  /** k's list of these channels in the last array, after the arrays it has grown out of. */
  function ListIn(k: Key, past: seq<N.Array>, slots: seq<nat>, cap: nat, len: nat): N.Lists {
    N.Lists(past + [N.Array(k, slots, cap)], map[k := N.Slice(|past|, len)])
  }

  function One(k: Key): N.Lists {
    ListIn(k, [], [0], 1, 1)
  }

  function Two(k: Key): N.Lists {
    ListIn(k, [N.Array(k, [0], 1)], [0, 1], 2, 2)
  }

  /** Capacities 1, 2 and 4. */
  function Three(k: Key): N.Lists {
    ListIn(k, Outgrown(k), [0, 1, 2], 4, 3)
  }

  function Outgrown(k: Key): seq<N.Array> {
    [N.Array(k, [0], 1), N.Array(k, [0, 1], 2)]
  }

  lemma FirstList(k: Key)
    ensures N.Subscribed(N.NoLists, k, 0, 0) == One(k)
  {
    assert N.Listed(N.NoLists, k) + [0] == [0];
    assert [] + [N.Array(k, [0], 1)] == [N.Array(k, [0], 1)];
  }

  /** A full array is left for one that holds one more. */
  lemma ListGrows(k: Key, past: seq<N.Array>, slots: seq<nat>, ch: nat, spare: nat)
    ensures var ls := ListIn(k, past, slots, |slots|, |slots|);
            N.Subscribed(ls, k, ch, spare)
            == ListIn(k, past + [N.Array(k, slots, |slots|)], slots + [ch], |slots| + 1 + spare, |slots| + 1)
  {
    var ls := ListIn(k, past, slots, |slots|, |slots|);
    assert N.Listed(ls, k) == slots;
    assert ls.subs[k := N.Slice(|past| + 1, |slots| + 1)] == map[k := N.Slice(|past| + 1, |slots| + 1)];
  }

  lemma ListsGrow(k: Key)
    ensures N.Subscribed(One(k), k, 1, 0) == Two(k) && N.Subscribed(Two(k), k, 2, 1) == Three(k)
  {
    ListGrows(k, [], [0], 1, 0);
    assert [] + [N.Array(k, [0], 1)] == [N.Array(k, [0], 1)] && [0] + [1] == [0, 1];
    ListGrows(k, [N.Array(k, [0], 1)], [0, 1], 2, 1);
    assert [N.Array(k, [0], 1)] + [N.Array(k, [0, 1], 2)] == Outgrown(k) && [0, 1] + [2] == [0, 1, 2];
  }

  // ---------------------------------------------------------------- steps between these states

  lemma RunSnoc(cfg: Config, s: State, evs: seq<Event>, ev: Event)
    ensures Run(cfg, s, evs + [ev]) == Step(cfg, Run(cfg, s, evs), ev)
  {
    assert (evs + [ev])[..|evs|] == evs;
  }

  lemma Connected(x: Scene, sessions: map<nat, Session>, lists: N.Lists, sid: nat)
    requires sid !in sessions && Suits(x.cfg, |sessions| + 1)
    ensures Step(x.cfg, Quiet(x, sessions, lists), Connect(sid, x.k))
            == Quiet(x, sessions[sid := NewSession(x.k)], lists)
  {
    assert Held(x, |sessions|)[x.k := |sessions| + 1] == map[x.k := |sessions| + 1];
  }

  lemma Subscribed(x: Scene, sessions: map<nat, Session>, lists: N.Lists, sid: nat, spare: nat)
    requires sid !in sessions
    ensures Step(x.cfg, Quiet(x, sessions[sid := NewSession(x.k)], lists), Subscribe(sid, true, spare))
            == Quiet(x, sessions[sid := Idle(x.k).(pc := FirstPeek)], N.Subscribed(lists, x.k, sid, spare))
  {
    var joined := sessions[sid := NewSession(x.k)][sid := Idle(x.k).(pc := FirstPeek)];
    assert joined == sessions[sid := Idle(x.k).(pc := FirstPeek)];
    NothingOvertaken(x, joined, lists, N.Subscribed(lists, x.k, sid, spare));
  }

  lemma NothingOvertaken(x: Scene, sessions: map<nat, Session>, lists: N.Lists, lists': N.Lists)
    ensures WithLists(Quiet(x, sessions, lists), lists') == Quiet(x, sessions, lists')
  {
    assert WithLists(Quiet(x, sessions, lists), lists').sessions == sessions;
  }

  lemma PeekedNothing(x: Scene, sessions: map<nat, Session>, lists: N.Lists, sid: nat)
    requires sid !in sessions
    ensures Step(x.cfg, Quiet(x, sessions[sid := Idle(x.k).(pc := FirstPeek)], lists), At(sid, Peek(true)))
            == Quiet(x, sessions[sid := Idle(x.k)], lists)
  {
    assert sessions[sid := Idle(x.k).(pc := FirstPeek)][sid := Idle(x.k)] == sessions[sid := Idle(x.k)];
    assert PeekAfter(Empty, x.k, 0) == [];
  }

  lemma Recorded(x: Scene, sessions: map<nat, Session>, lists: N.Lists)
    ensures AfterPush(Quiet(x, sessions, lists), 0, Body(x), Taken(x))
            == Under(x, sessions, lists, Committed(RowOf(x)))
  {
  }

  /** A push taken as given, in a state where it meets no other. */
  lemma PushIs(cfg: Config, s: State, plain: Bytes, body: Bytes, clock: L.Clock, wall: int, r: PushResult)
    requires 0 !in s.pushes && Parse(plain) == Parsed(PUSH, body)
    requires Push(cfg, s.buckets, s.table, body, clock, wall, false) == r
    ensures Step(cfg, s, PushFrame(0, plain, clock, wall, false)) == AfterPush(s, 0, body, r)
  {
    PushTakes(cfg, s, 0, plain, body, clock, wall, false);
  }

  lemma PushGives(x: Scene, s: State)
    requires Suits(x.cfg, 0) && s.buckets == map[] && s.table == Empty && 0 !in s.pushes
    ensures Step(x.cfg, s, ThePush(x)) == AfterPush(s, 0, Body(x), Taken(x))
  {
    PushTaken(x);
    FrameParses(x);
    PushIs(x.cfg, s, FrameBytes(PUSH, Body(x)), Body(x), x.clock, x.wall, Taken(x));
  }

  lemma Pushed(x: Scene, sessions: map<nat, Session>, lists: N.Lists)
    requires Suits(x.cfg, 0)
    ensures Step(x.cfg, Quiet(x, sessions, lists), ThePush(x)) == Under(x, sessions, lists, Committed(RowOf(x)))
  {
    PushGives(x, Quiet(x, sessions, lists));
    Recorded(x, sessions, lists);
  }

  lemma Begun(x: Scene, sessions: map<nat, Session>, lists: N.Lists)
    requires x.k in lists.subs
    ensures Step(x.cfg, Under(x, sessions, lists, Committed(RowOf(x))), BeginNotify(0))
            == Under(x, sessions, lists, Fanning(RowOf(x), lists.subs[x.k].arr, F.Scan(lists.subs[x.k].len, 0, None)))
  {
  }

  lemma ReadNext(x: Scene, sessions: map<nat, Session>, lists: N.Lists, a: nat, n: nat, i: nat)
    requires a < |lists.heap| && i < n && i < |lists.heap[a].slots|
    ensures Step(x.cfg, Under(x, sessions, lists, Fanning(RowOf(x), a, F.Scan(n, i, None))), NotifyRead(0))
            == Under(x, sessions, lists, Fanning(RowOf(x), a, F.Scan(n, i + 1, Some(lists.heap[a].slots[i]))))
  {
  }

  lemma ReadEnd(x: Scene, sessions: map<nat, Session>, lists: N.Lists, a: nat, n: nat)
    ensures Step(x.cfg, Under(x, sessions, lists, Fanning(RowOf(x), a, F.Scan(n, n, None))), NotifyRead(0))
            == Under(x, sessions, lists, Notified(RowOf(x)))
  {
  }

  lemma SentNext(x: Scene, sessions: map<nat, Session>, lists: N.Lists, a: nat, n: nat, i: nat, ch: nat)
    requires ch in sessions && !sessions[ch].stage.Closed?
    ensures Step(x.cfg, Under(x, sessions, lists, Fanning(RowOf(x), a, F.Scan(n, i, Some(ch)))), NotifySend(0))
            == Under(x, sessions[ch := sessions[ch].(signal := true)], lists, Fanning(RowOf(x), a, F.Scan(n, i, None)))
  {
  }

  lemma AckedOn(x: Scene, sessions: map<nat, Session>, lists: N.Lists)
    ensures Step(x.cfg, Under(x, sessions, lists, Notified(RowOf(x))), AckPush(0))
            == Under(x, sessions, lists, Acked(RowOf(x)))
  {
  }

  lemma Own1(x: Scene, sessions: map<nat, Session>, lists: N.Lists, p: Progress, sid: nat, e: LocalEvent)
    requires sid in sessions
    ensures Step(x.cfg, Under(x, sessions, lists, p), At(sid, e))
            == Under(x, sessions[sid := Local(x.cfg.cipher, Table([RowOf(x)], 1), sessions[sid], e)], lists, p)
  {
  }

  // ---------------------------------------------------------------- runs, step by step

  predicate NoPeekFails(evs: seq<Event>) {
    forall ev :: ev in evs && ev.At? ==> ev.e != Peek(false)
  }

  /** A run to this state in which no peek fails. */
  ghost predicate Leads(x: Scene, evs: seq<Event>, s: State) {
    Run(x.cfg, Init, evs) == s && NoPeekFails(evs)
  }

  lemma Then(x: Scene, evs: seq<Event>, s: State, ev: Event, s': State) returns (evs': seq<Event>)
    requires Leads(x, evs, s) && Step(x.cfg, s, ev) == s' && (ev.At? ==> ev.e != Peek(false))
    ensures Leads(x, evs', s')
  {
    RunSnoc(x.cfg, Init, evs, ev);
    evs' := evs + [ev];
  }

  /** One more session connects, subscribes and peeks. */
  lemma ThenJoins(x: Scene, evs: seq<Event>, sessions: map<nat, Session>, lists: N.Lists, sid: nat, spare: nat)
    returns (evs': seq<Event>)
    requires Leads(x, evs, Quiet(x, sessions, lists)) && sid !in sessions && Suits(x.cfg, |sessions| + 1)
    ensures Leads(x, evs', Quiet(x, sessions[sid := Idle(x.k)], N.Subscribed(lists, x.k, sid, spare)))
  {
    var lists' := N.Subscribed(lists, x.k, sid, spare);
    var joined, first := sessions[sid := NewSession(x.k)], sessions[sid := Idle(x.k).(pc := FirstPeek)];
    Connected(x, sessions, lists, sid);
    evs' := Then(x, evs, Quiet(x, sessions, lists), Connect(sid, x.k), Quiet(x, joined, lists));
    Subscribed(x, sessions, lists, sid, spare);
    evs' := Then(x, evs', Quiet(x, joined, lists), Subscribe(sid, true, spare), Quiet(x, first, lists'));
    PeekedNothing(x, sessions, lists', sid);
    evs' := Then(x, evs', Quiet(x, first, lists'), At(sid, Peek(true)), Quiet(x, sessions[sid := Idle(x.k)], lists'));
  }

  /** The push is taken, and its fan-out takes the header. */
  lemma ThenPushes(x: Scene, evs: seq<Event>, sessions: map<nat, Session>, lists: N.Lists) returns (evs': seq<Event>)
    requires Leads(x, evs, Quiet(x, sessions, lists)) && Suits(x.cfg, 0) && x.k in lists.subs
    ensures var sl := lists.subs[x.k];
            Leads(x, evs', Under(x, sessions, lists, Fanning(RowOf(x), sl.arr, F.Scan(sl.len, 0, None))))
  {
    var sl := lists.subs[x.k];
    Pushed(x, sessions, lists);
    evs' := Then(x, evs, Quiet(x, sessions, lists), ThePush(x), Under(x, sessions, lists, Committed(RowOf(x))));
    Begun(x, sessions, lists);
    evs' := Then(x, evs', Under(x, sessions, lists, Committed(RowOf(x))), BeginNotify(0),
                 Under(x, sessions, lists, Fanning(RowOf(x), sl.arr, F.Scan(sl.len, 0, None))));
  }

  lemma ThenReads(x: Scene, evs: seq<Event>, sessions: map<nat, Session>, lists: N.Lists,
                  a: nat, n: nat, i: nat, ch: nat)
    returns (evs': seq<Event>)
    requires Leads(x, evs, Under(x, sessions, lists, Fanning(RowOf(x), a, F.Scan(n, i, None))))
    requires a < |lists.heap| && i < n && i < |lists.heap[a].slots| && lists.heap[a].slots[i] == ch
    ensures Leads(x, evs', Under(x, sessions, lists, Fanning(RowOf(x), a, F.Scan(n, i + 1, Some(ch)))))
  {
    ReadNext(x, sessions, lists, a, n, i);
    evs' := Then(x, evs, Under(x, sessions, lists, Fanning(RowOf(x), a, F.Scan(n, i, None))), NotifyRead(0),
                 Under(x, sessions, lists, Fanning(RowOf(x), a, F.Scan(n, i + 1, Some(ch)))));
  }

  /** The fan-out reads a slot and sends to it. */
  lemma ThenVisits(x: Scene, evs: seq<Event>, sessions: map<nat, Session>, lists: N.Lists,
                   a: nat, n: nat, i: nat, ch: nat, told: map<nat, Session>)
    returns (evs': seq<Event>)
    requires Leads(x, evs, Under(x, sessions, lists, Fanning(RowOf(x), a, F.Scan(n, i, None))))
    requires a < |lists.heap| && i < n && i < |lists.heap[a].slots| && lists.heap[a].slots[i] == ch
    requires ch in sessions && !sessions[ch].stage.Closed? && told == sessions[ch := sessions[ch].(signal := true)]
    ensures Leads(x, evs', Under(x, told, lists, Fanning(RowOf(x), a, F.Scan(n, i + 1, None))))
  {
    evs' := ThenReads(x, evs, sessions, lists, a, n, i, ch);
    SentNext(x, sessions, lists, a, n, i + 1, ch);
    evs' := Then(x, evs', Under(x, sessions, lists, Fanning(RowOf(x), a, F.Scan(n, i + 1, Some(ch)))), NotifySend(0),
                 Under(x, told, lists, Fanning(RowOf(x), a, F.Scan(n, i + 1, None))));
  }

  /** A session's context ends. */
  lemma ThenCancels(x: Scene, evs: seq<Event>, sessions: map<nat, Session>, lists: N.Lists, p: Progress, sid: nat,
                    left: map<nat, Session>)
    returns (evs': seq<Event>)
    requires Leads(x, evs, Under(x, sessions, lists, p)) && sid in sessions
    requires left == sessions[sid := sessions[sid].(cancelled := true)]
    ensures Leads(x, evs', Under(x, left, lists, p))
  {
    Own1(x, sessions, lists, p, sid, Cancel);
    evs' := Then(x, evs, Under(x, sessions, lists, p), At(sid, Cancel), Under(x, left, lists, p));
  }

  lemma ThenFinishes(x: Scene, evs: seq<Event>, sessions: map<nat, Session>, lists: N.Lists, a: nat, n: nat)
    returns (evs': seq<Event>)
    requires Leads(x, evs, Under(x, sessions, lists, Fanning(RowOf(x), a, F.Scan(n, n, None))))
    ensures Leads(x, evs', Under(x, sessions, lists, Acked(RowOf(x))))
  {
    ReadEnd(x, sessions, lists, a, n);
    evs' := Then(x, evs, Under(x, sessions, lists, Fanning(RowOf(x), a, F.Scan(n, n, None))), NotifyRead(0),
                 Under(x, sessions, lists, Notified(RowOf(x))));
    AckedOn(x, sessions, lists);
    evs' := Then(x, evs', Under(x, sessions, lists, Notified(RowOf(x))), AckPush(0),
                 Under(x, sessions, lists, Acked(RowOf(x))));
  }

  /** A live session that has seen nothing, with no signal and every push done, and a row in its
      Inbox that is not due for a reap until its time to live has passed. */
  predicate Stranded(x: Scene, s: State, sid: nat) {
    && sid in s.sessions && s.sessions[sid] == Idle(x.k).(behind := true)
    && RowOf(x) in s.table.rows && RowOf(x).expiresAt == Unix(x.wall + x.cfg.ttl)
    && forall p :: p in s.pushes ==> s.pushes[p].Acked?
  }

  lemma StrandedIsStuck(x: Scene, s: State, sid: nat)
    requires Stranded(x, s, sid)
    ensures Live(s.sessions[sid]) && WriterUp(s.sessions[sid]) && Stuck(s, sid, 1)
  {
    var ss := s.sessions[sid];
    assert Known(ss) == [];
    forall p | p in s.pushes ensures !MaySend(s.lists, s.sessions, s.pushes[p], sid, x.k) {
      assert s.pushes[p].Acked?;
    }
  }

  /** The row is out of the session's reach for good, short of a new connection, a further push or
      a context that ends. */
  ghost predicate OutOfReach(x: Scene, s: State, sid: nat) {
    forall more :: AllUnaided(more) ==> !Delivers(x.cfg, s, more, sid, RowOf(x))
  }

  lemma StrandedStays(x: Scene, evs: seq<Event>, sid: nat)
    requires x.cfg.Ok() && Stranded(x, Run(x.cfg, Init, evs), sid)
    ensures OutOfReach(x, Run(x.cfg, Init, evs), sid)
  {
    var s := Run(x.cfg, Init, evs);
    InitInv(x.cfg);
    RunInv(x.cfg, Init, evs);
    StrandedIsStuck(x, s, sid);
    forall more | AllUnaided(more) ensures !Delivers(x.cfg, s, more, sid, RowOf(x)) {
      StuckNeverDelivers(x.cfg, s, sid, RowOf(x), more);
    }
  }

  // ---------------------------------------------------------------- a peek that fails

  /** One session has joined. */
  lemma OneJoined(x: Scene) returns (evs: seq<Event>)
    requires Suits(x.cfg, 1)
    ensures Leads(x, evs, Quiet(x, map[0 := Idle(x.k)], One(x.k)))
  {
    FirstList(x.k);
    assert Leads(x, [], Quiet(x, map[], N.NoLists));
    evs := ThenJoins(x, [], map[], N.NoLists, 0, 0);
    assert map[][0 := Idle(x.k)] == map[0 := Idle(x.k)];
  }

  /** ... and a fan-out over its list has begun. */
  lemma OnePushed(x: Scene) returns (evs: seq<Event>)
    requires Suits(x.cfg, 1)
    ensures Leads(x, evs, Under(x, map[0 := Idle(x.k)], One(x.k), Fanning(RowOf(x), 0, F.Scan(1, 0, None))))
  {
    evs := OneJoined(x);
    evs := ThenPushes(x, evs, map[0 := Idle(x.k)], One(x.k));
  }

  /** A fan-out over one slot tells session 0. */
  lemma TellFirst(x: Scene, evs: seq<Event>, sessions: map<nat, Session>, lists: N.Lists) returns (evs': seq<Event>)
    requires Leads(x, evs, Under(x, sessions, lists, Fanning(RowOf(x), 0, F.Scan(1, 0, None))))
    requires |lists.heap| > 0 && lists.heap[0].slots == [0] && 0 in sessions && !sessions[0].stage.Closed?
    ensures Leads(x, evs', Under(x, sessions[0 := sessions[0].(signal := true)], lists,
                                 Fanning(RowOf(x), 0, F.Scan(1, 1, None))))
  {
    evs' := ThenVisits(x, evs, sessions, lists, 0, 1, 0, 0, sessions[0 := sessions[0].(signal := true)]);
  }

  lemma OneSlots(k: Key)
    ensures |One(k).heap| == 1 && One(k).heap[0].slots == [0]
  {
  }

  /** ... and it has the push's signal. */
  lemma OneTold(x: Scene) returns (evs: seq<Event>)
    requires Suits(x.cfg, 1)
    ensures Leads(x, evs, Under(x, map[0 := Idle(x.k).(signal := true)], One(x.k),
                                Fanning(RowOf(x), 0, F.Scan(1, 1, None))))
  {
    var one := map[0 := Idle(x.k)];
    evs := OnePushed(x);
    OneSlots(x.k);
    evs := TellFirst(x, evs, one, One(x.k));
    assert one[0 := one[0].(signal := true)] == map[0 := Idle(x.k).(signal := true)];
  }

  /** ... and has the signal of a push that is Acked. */
  lemma OneNotified(x: Scene) returns (evs: seq<Event>)
    requires Suits(x.cfg, 1)
    ensures Leads(x, evs, Under(x, map[0 := Idle(x.k).(signal := true)], One(x.k), Acked(RowOf(x))))
  {
    evs := OneTold(x);
    evs := ThenFinishes(x, evs, map[0 := Idle(x.k).(signal := true)], One(x.k), 0, 1);
  }

  lemma PeekIsLost(x: Scene, evs: seq<Event>)
    requires Run(x.cfg, Init, evs)
             == Under(x, map[0 := Idle(x.k).(signal := true)], One(x.k), Acked(RowOf(x)))
    ensures Run(x.cfg, Init, evs + [At(0, Wake)] + [At(0, Peek(false))])
            == Under(x, map[0 := Idle(x.k).(behind := true)], One(x.k), Acked(RowOf(x)))
  {
    var told, woken := map[0 := Idle(x.k).(signal := true)], map[0 := Idle(x.k).(pc := Woken)];
    RunSnoc(x.cfg, Init, evs, At(0, Wake));
    Own1(x, told, One(x.k), Acked(RowOf(x)), 0, Wake);
    assert told[0 := Idle(x.k).(pc := Woken)] == woken;
    RunSnoc(x.cfg, Init, evs + [At(0, Wake)], At(0, Peek(false)));
    Own1(x, woken, One(x.k), Acked(RowOf(x)), 0, Peek(false));
    assert woken[0 := Idle(x.k).(behind := true)] == map[0 := Idle(x.k).(behind := true)];
  }

  /** One session, one push, one failed peek: the session is live, its signal is spent, the row
      is unseen, and nothing the relay does on its own will show it. */
  lemma FailedPeekStrands(x: Scene) returns (evs: seq<Event>)
    requires x.cfg.Ok() && Suits(x.cfg, 1)
    ensures Stranded(x, Run(x.cfg, Init, evs), 0) && OutOfReach(x, Run(x.cfg, Init, evs), 0)
  {
    var told := OneNotified(x);
    PeekIsLost(x, told);
    evs := told + [At(0, Wake)] + [At(0, Peek(false))];
    StrandedStays(x, evs, 0);
  }

  // ---------------------------------------------------------------- a removal that overtakes the fan-out

  function ThreeIdle(k: Key): map<nat, Session> {
    map[0 := Idle(k), 1 := Idle(k), 2 := Idle(k)]
  }

  lemma AllJoined(x: Scene) returns (evs: seq<Event>)
    requires Suits(x.cfg, 3)
    ensures Leads(x, evs, Quiet(x, ThreeIdle(x.k), Three(x.k)))
  {
    ListsGrow(x.k);
    evs := OneJoined(x);
    evs := ThenJoins(x, evs, map[0 := Idle(x.k)], One(x.k), 1, 0);
    assert map[0 := Idle(x.k)][1 := Idle(x.k)] == map[0 := Idle(x.k), 1 := Idle(x.k)];
    evs := ThenJoins(x, evs, map[0 := Idle(x.k), 1 := Idle(x.k)], Two(x.k), 2, 1);
    assert map[0 := Idle(x.k), 1 := Idle(x.k)][2 := Idle(x.k)] == ThreeIdle(x.k);
  }

  function Leaver(k: Key): Session {
    Idle(k).(signal := true, cancelled := true)
  }

  /** The sessions after the removal: 1 has been overtaken, 2 has not. */
  function Overtook(k: Key): map<nat, Session> {
    map[0 := Leaver(k).(stage := Removed), 1 := Idle(k).(behind := true), 2 := Idle(k)]
  }

  const AT_ONE := F.Scan(3, 1, None)

  /** The list once 0 has left it. */
  function Shrunk(k: Key): N.Lists {
    ListIn(k, Outgrown(k), [1, 2, 2], 4, 2)
  }

  lemma RemovedLists(k: Key)
    ensures N.Unsubscribed(Three(k), k, 0) == Shrunk(k)
  {
    var ls := Three(k);
    assert N.Listed(ls, k) == [0, 1, 2];
    assert N.IndexOf([0, 1, 2], 0) == 0;
    assert N.Shifted([0, 1, 2], 3, 0) == [1, 2, 2];
    assert ls.heap[2 := ls.heap[2].(slots := [1, 2, 2])] == Shrunk(k).heap;
    assert ls.subs[k := N.Slice(2, 2)] == Shrunk(k).subs;
  }

  /** With one push under way, a session is overtaken exactly when that push's fan-out is. */
  lemma OvertakenOne(x: Scene, sessions: map<nat, Session>, lists: N.Lists, heap: seq<N.Array>, a: nat, sc: F.Scan,
                     sid: nat)
    requires sid in sessions && sessions[sid].key == x.k
    ensures Overtaken(Under(x, sessions, lists, Fanning(RowOf(x), a, sc)), heap, sid)
            <==> F.Ahead(SlotsAt(lists.heap, a), sc, sid) && !F.Ahead(SlotsAt(heap, a), sc, sid)
  {
    PendsOfOne(x, lists.heap, Fanning(RowOf(x), a, sc), sid);
    PendsOfOne(x, heap, Fanning(RowOf(x), a, sc), sid);
  }

  lemma PendsOfOne(x: Scene, heap: seq<N.Array>, p: Progress, sid: nat)
    requires p.Fanning? && p.row == RowOf(x)
    ensures Pending(heap, map[0 := p], sid, x.k) <==> F.Ahead(SlotsAt(heap, p.arr), p.scan, sid)
  {
    var pushes := map[0 := p];
    assert PendsFor(heap, pushes[0], sid, x.k) ==> Pending(heap, pushes, sid, x.k);
  }

  lemma AheadBefore()
    ensures var slots: seq<nat> := [0, 1, 2];
            !F.Ahead(slots, AT_ONE, 0) && F.Ahead(slots, AT_ONE, 1) && F.Ahead(slots, AT_ONE, 2)
  {
    var slots: seq<nat> := [0, 1, 2];
    assert slots[1] == 1 && slots[2] == 2;
  }

  lemma AheadAfter()
    ensures var slots: seq<nat> := [1, 2, 2];
            !F.Ahead(slots, AT_ONE, 0) && !F.Ahead(slots, AT_ONE, 1) && F.Ahead(slots, AT_ONE, 2)
  {
    var slots: seq<nat> := [1, 2, 2];
    assert slots[1] == 2;
  }

  /** The shift takes 1 from the fan-out, and no other session. */
  lemma OnlyOneOvertaken(x: Scene, sessions: map<nat, Session>)
    requires sessions == map[0 := Leaver(x.k).(stage := Removed), 1 := Idle(x.k), 2 := Idle(x.k)]
    ensures var s := Under(x, sessions, Three(x.k), Fanning(RowOf(x), 2, AT_ONE));
            && !Overtaken(s, Shrunk(x.k).heap, 0) && Overtaken(s, Shrunk(x.k).heap, 1)
            && !Overtaken(s, Shrunk(x.k).heap, 2)
  {
    OvertakenOne(x, sessions, Three(x.k), Shrunk(x.k).heap, 2, AT_ONE, 0);
    OvertakenOne(x, sessions, Three(x.k), Shrunk(x.k).heap, 2, AT_ONE, 1);
    OvertakenOne(x, sessions, Three(x.k), Shrunk(x.k).heap, 2, AT_ONE, 2);
    assert SlotsAt(Three(x.k).heap, 2) == [0, 1, 2] && SlotsAt(Shrunk(x.k).heap, 2) == [1, 2, 2];
    AheadBefore();
    AheadAfter();
  }

  lemma RemovalMarks(x: Scene, sessions: map<nat, Session>)
    requires sessions == map[0 := Leaver(x.k).(stage := Removed), 1 := Idle(x.k), 2 := Idle(x.k)]
    ensures WithLists(Under(x, sessions, Three(x.k), Fanning(RowOf(x), 2, AT_ONE)), Shrunk(x.k))
            == Under(x, Overtook(x.k), Shrunk(x.k), Fanning(RowOf(x), 2, AT_ONE))
  {
    OnlyOneOvertaken(x, sessions);
    MarksOne(x.k, sessions, Under(x, sessions, Three(x.k), Fanning(RowOf(x), 2, AT_ONE)), Shrunk(x.k));
  }

  lemma MarksOne(k: Key, sessions: map<nat, Session>, s: State, lists: N.Lists)
    requires s.sessions == sessions
    requires sessions == map[0 := Leaver(k).(stage := Removed), 1 := Idle(k), 2 := Idle(k)]
    requires !Overtaken(s, lists.heap, 0) && Overtaken(s, lists.heap, 1) && !Overtaken(s, lists.heap, 2)
    ensures WithLists(s, lists) == s.(lists := lists, sessions := Overtook(k))
  {
    assert WithLists(s, lists).sessions == Overtook(k);
  }

  lemma RemovalOvertakes(x: Scene, sessions: map<nat, Session>)
    requires sessions == map[0 := Leaver(x.k), 1 := Idle(x.k), 2 := Idle(x.k)]
    ensures Step(x.cfg, Under(x, sessions, Three(x.k), Fanning(RowOf(x), 2, AT_ONE)), Unsubscribe(0))
            == Under(x, Overtook(x.k), Shrunk(x.k), Fanning(RowOf(x), 2, AT_ONE))
  {
    RemovedLists(x.k);
    var sessions' := sessions[0 := Leaver(x.k).(stage := Removed)];
    assert sessions' == map[0 := Leaver(x.k).(stage := Removed), 1 := Idle(x.k), 2 := Idle(x.k)];
    RemovalMarks(x, sessions');
  }

  function FirstTold(k: Key): map<nat, Session> {
    map[0 := Idle(k).(signal := true), 1 := Idle(k), 2 := Idle(k)]
  }

  lemma FirstIsTold(k: Key)
    ensures FirstTold(k) == ThreeIdle(k)[0 := ThreeIdle(k)[0].(signal := true)]
  {
  }

  /** Three sessions of one Device, listed as 0, 1, 2; the fan-out has sent to 0. */
  lemma RaceToFirst(x: Scene) returns (evs: seq<Event>)
    requires Suits(x.cfg, 3)
    ensures Leads(x, evs, Under(x, FirstTold(x.k), Three(x.k), Fanning(RowOf(x), 2, AT_ONE)))
  {
    evs := AllJoined(x);
    evs := ThenPushes(x, evs, ThreeIdle(x.k), Three(x.k));
    FirstIsTold(x.k);
    evs := ThenVisits(x, evs, ThreeIdle(x.k), Three(x.k), 2, 3, 0, 0, FirstTold(x.k));
  }

  lemma FirstLeaves(k: Key)
    ensures map[0 := Leaver(k), 1 := Idle(k), 2 := Idle(k)]
            == FirstTold(k)[0 := FirstTold(k)[0].(cancelled := true)]
  {
  }

  /** Then 0 is cancelled and removed: the others move down a slot, and 1 moves behind the
      cursor. */
  lemma RaceToRemoval(x: Scene) returns (evs: seq<Event>)
    requires Suits(x.cfg, 3)
    ensures Leads(x, evs, Under(x, Overtook(x.k), Shrunk(x.k), Fanning(RowOf(x), 2, AT_ONE)))
  {
    var ls, p := Three(x.k), Fanning(RowOf(x), 2, AT_ONE);
    var told, left := FirstTold(x.k), map[0 := Leaver(x.k), 1 := Idle(x.k), 2 := Idle(x.k)];
    evs := RaceToFirst(x);
    FirstLeaves(x.k);
    evs := ThenCancels(x, evs, told, ls, p, 0, left);
    RemovalOvertakes(x, left);
    evs := Then(x, evs, Under(x, left, ls, p), Unsubscribe(0), Under(x, Overtook(x.k), Shrunk(x.k), p));
  }

  /** No peek fails in this run, every push is Acked at its end, and still session 1 is live,
      has a row it has not seen, and nothing the relay does on its own will show it. */
  lemma LostWakeUp(x: Scene) returns (evs: seq<Event>)
    requires x.cfg.Ok() && Suits(x.cfg, 3)
    ensures NoPeekFails(evs)
    ensures Stranded(x, Run(x.cfg, Init, evs), 1) && OutOfReach(x, Run(x.cfg, Init, evs), 1)
  {
    evs := RaceToRemoval(x);
    LastIsTold(x.k);
    ShrunkSlots(x.k);
    evs := ThenVisits(x, evs, Overtook(x.k), Shrunk(x.k), 2, 3, 1, 2, LastTold(x.k));
    evs := ThenVisits(x, evs, LastTold(x.k), Shrunk(x.k), 2, 3, 2, 2, LastTold(x.k));
    evs := ThenFinishes(x, evs, LastTold(x.k), Shrunk(x.k), 2, 3);
    OneIsStranded(x);
    StrandedStays(x, evs, 1);
  }

  function LastTold(k: Key): map<nat, Session> {
    Overtook(k)[2 := Idle(k).(signal := true)]
  }

  /** The fan-out comes to 2 twice. */
  lemma LastIsTold(k: Key)
    ensures 2 in Overtook(k) && Overtook(k)[2] == Idle(k)
    ensures LastTold(k) == Overtook(k)[2 := Overtook(k)[2].(signal := true)]
    ensures 2 in LastTold(k) && LastTold(k)[2].stage.Listening?
    ensures LastTold(k) == LastTold(k)[2 := LastTold(k)[2].(signal := true)]
  {
  }

  lemma ShrunkSlots(k: Key)
    ensures |Shrunk(k).heap| == 3 && Shrunk(k).heap[2].slots == [1, 2, 2]
  {
  }

  lemma OneIsStranded(x: Scene)
    ensures Stranded(x, Under(x, LastTold(x.k), Shrunk(x.k), Acked(RowOf(x))), 1)
  {
  }

  // ---------------------------------------------------------------- a send to a closed channel

  const HELD := F.Scan(1, 1, Some(0))

  /** k's list is gone; its array is still there. */
  function Gone(k: Key): N.Lists {
    N.Lists([N.Array(k, [0], 1)], map[])
  }

  /** The fan-out holds session 0's channel, and k's list is gone. */
  function Holding(x: Scene, ss: Session): State {
    Under(x, map[0 := ss], Gone(x.k), Fanning(RowOf(x), 0, HELD))
  }

  lemma LastRemoved(k: Key)
    ensures N.Unsubscribed(One(k), k, 0) == Gone(k)
  {
    var ls := One(k);
    assert N.Listed(ls, k) == [0];
    assert N.Shifted([0], 1, 0) == [0];
    assert ls.heap[0 := ls.heap[0].(slots := [0])] == Gone(k).heap;
  }

  lemma LastMarks(x: Scene, ss: Session)
    requires ss.key == x.k
    ensures WithLists(Under(x, map[0 := ss], One(x.k), Fanning(RowOf(x), 0, HELD)), Gone(x.k)) == Holding(x, ss)
  {
    OvertakenOne(x, map[0 := ss], One(x.k), Gone(x.k).heap, 0, HELD, 0);
    assert WithLists(Under(x, map[0 := ss], One(x.k), Fanning(RowOf(x), 0, HELD)), Gone(x.k)).sessions == map[0 := ss];
  }

  lemma LastLeaves(x: Scene, ss: Session)
    requires ss == Idle(x.k).(cancelled := true)
    ensures Step(x.cfg, Under(x, map[0 := ss], One(x.k), Fanning(RowOf(x), 0, HELD)), Unsubscribe(0))
            == Holding(x, ss.(stage := Removed))
  {
    LastRemoved(x.k);
    assert map[0 := ss][0 := ss.(stage := Removed)] == map[0 := ss.(stage := Removed)];
    LastMarks(x, ss.(stage := Removed));
  }

  lemma LastCloses(x: Scene, ss: Session)
    requires ss.stage.Removed?
    ensures Step(x.cfg, Holding(x, ss), CloseChannel(0)) == Holding(x, ss.(stage := Closed))
  {
  }

  lemma LastIsHit(x: Scene, ss: Session)
    requires ss.stage.Closed?
    ensures Step(x.cfg, Holding(x, ss), NotifySend(0)) == Restarted(Holding(x, ss))
    ensures Restarted(Holding(x, ss)).pushes == map[]
  {
  }

  /** A fan-out over one slot has read session 0, whose context then ends. */
  lemma ReadFirst(x: Scene, evs: seq<Event>, sessions: map<nat, Session>, lists: N.Lists) returns (evs': seq<Event>)
    requires Leads(x, evs, Under(x, sessions, lists, Fanning(RowOf(x), 0, F.Scan(1, 0, None))))
    requires |lists.heap| > 0 && lists.heap[0].slots == [0] && 0 in sessions
    ensures Leads(x, evs', Under(x, sessions[0 := sessions[0].(cancelled := true)], lists,
                                 Fanning(RowOf(x), 0, HELD)))
  {
    var left := sessions[0 := sessions[0].(cancelled := true)];
    evs' := ThenReads(x, evs, sessions, lists, 0, 1, 0, 0);
    evs' := ThenCancels(x, evs', sessions, lists, Fanning(RowOf(x), 0, HELD), 0, left);
  }

  lemma HitToCancel(x: Scene) returns (evs: seq<Event>)
    requires Suits(x.cfg, 1)
    ensures Leads(x, evs, Under(x, map[0 := Idle(x.k).(cancelled := true)], One(x.k), Fanning(RowOf(x), 0, HELD)))
  {
    var one := map[0 := Idle(x.k)];
    evs := OnePushed(x);
    OneSlots(x.k);
    evs := ReadFirst(x, evs, one, One(x.k));
    assert one[0 := one[0].(cancelled := true)] == map[0 := Idle(x.k).(cancelled := true)];
  }

  lemma HitToRemoval(x: Scene) returns (evs: seq<Event>)
    requires Suits(x.cfg, 1)
    ensures Leads(x, evs, Holding(x, Idle(x.k).(cancelled := true, stage := Removed)))
  {
    var ss := Idle(x.k).(cancelled := true);
    evs := HitToCancel(x);
    LastLeaves(x, ss);
    evs := Then(x, evs, Under(x, map[0 := ss], One(x.k), Fanning(RowOf(x), 0, HELD)), Unsubscribe(0),
                Holding(x, ss.(stage := Removed)));
  }

  /** One session is read by the fan-out, then cancelled, removed and closed before the send.  The
      send stops the process before the push is Acked; the row is in the store all the same. */
  lemma ClosedChannelIsHit(x: Scene) returns (evs: seq<Event>)
    requires Suits(x.cfg, 1)
    ensures evs != [] && evs[|evs| - 1] == NotifySend(0)
    ensures var before := Run(x.cfg, Init, evs[..|evs| - 1]);
            && Holds(before, 0) && ClosedIn(before, before.pushes[0].scan.hand.value)
            && Run(x.cfg, Init, evs) == Restarted(before)
    ensures Run(x.cfg, Init, evs).pushes == map[] && Run(x.cfg, Init, evs).table == Table([RowOf(x)], 1)
  {
    var ss := Idle(x.k).(cancelled := true, stage := Removed);
    var before := HitToRemoval(x);
    LastCloses(x, ss);
    before := Then(x, before, Holding(x, ss), CloseChannel(0), Holding(x, ss.(stage := Closed)));
    LastIsHit(x, ss.(stage := Closed));
    RunSnoc(x.cfg, Init, before, NotifySend(0));
    evs := before + [NotifySend(0)];
    assert evs[..|evs| - 1] == before;
  }

  /** A frame that makes Parse panic stops the process, in whatever state it is. */
  lemma PanicRestarts(cfg: Config, s: State, pid: nat, clock: L.Clock, wall: int, fault: bool)
    requires pid !in s.pushes
    ensures Run(cfg, s, [PushFrame(pid, PANIC_FRAME, clock, wall, fault)]) == Restarted(s)
  {
    PanicFramePanics();
    RunOne(cfg, s, PushFrame(pid, PANIC_FRAME, clock, wall, fault));
  }

  // ---------------------------------------------------------------- a temporary refusal that is for good

  /** What the first push meets when the limits leave no room for it. */
  lemma FirstIsRefused(x: Scene)
    requires x.cfg.bucket.rate > 0.0 && x.cfg.SizeLimit() >= 34 && !Grantable(x.cfg, 34)
    ensures Push(x.cfg, map[], Empty, Body(x), x.clock, x.wall, false).outcome
            == Refused(WhyFirst(x.cfg))
  {
    BodyPassesScreen(x);
    FirstIsAllowed(x.cfg.bucket, L.Call(x.k, x.clock));
    NoneLeft(Empty.rows, x.k);
  }

  lemma RefusedProgress(s: State, body: Bytes, r: PushResult, why: Refusal)
    requires r.outcome == Refused(why)
    ensures AfterPush(s, 0, body, r).pushes == s.pushes[0 := Declined(Reason(why))]
  {
  }

  lemma FirstRefusal(x: Scene, r: PushResult)
    requires r == Push(x.cfg, map[], Empty, Body(x), x.clock, x.wall, false)
    ensures Step(x.cfg, Init, ThePush(x)) == AfterPush(Init, 0, Body(x), r)
  {
    FrameParses(x);
    PushIs(x.cfg, Init, FrameBytes(PUSH, Body(x)), Body(x), x.clock, x.wall, r);
  }

  function WhyRefused(cfg: Config): Byte {
    if cfg.bucket.burst < 1.0 then REASON_RATE_LIMITED else REASON_INBOX_FULL
  }

  lemma WhyIsTemporary(cfg: Config)
    ensures Temporary(WhyRefused(cfg))
  {
  }

  function WhyFirst(cfg: Config): Refusal {
    if cfg.bucket.burst < 1.0 then RateLimited else InboxFull
  }

  lemma FirstDeclined(x: Scene, r: PushResult)
    requires r == Push(x.cfg, map[], Empty, Body(x), x.clock, x.wall, false) && r.outcome == Refused(WhyFirst(x.cfg))
    ensures Step(x.cfg, Init, ThePush(x)).pushes == map[0 := Declined(WhyRefused(x.cfg))]
  {
    FirstRefusal(x, r);
    RefusedProgress(Init, Body(x), r, WhyFirst(x.cfg));
  }

  /** With a burst below one, or a byte quota below 34, the first push of an empty relay is refused
      with bit 7 set, and no continuation of the run gets its body in, however late. */
  lemma RefusedForever(x: Scene) returns (evs: seq<Event>)
    requires x.cfg.bucket.rate > 0.0 && x.cfg.SizeLimit() >= 34 && !Grantable(x.cfg, 34)
    ensures |evs| == 1 && evs[0] == ThePush(x)
    ensures Run(x.cfg, Init, evs).pushes == map[0 := Declined(WhyRefused(x.cfg))] && Temporary(WhyRefused(x.cfg))
    ensures forall pid :: !CanGetIn(x.cfg, evs, pid, Body(x))
  {
    evs := [ThePush(x)];
    FirstIsRefused(x);
    FirstDeclined(x, Push(x.cfg, map[], Empty, Body(x), x.clock, x.wall, false));
    WhyIsTemporary(x.cfg);
    RunOne(x.cfg, Init, ThePush(x));
    NeverGetsIn(x, evs);
  }

  lemma NeverGetsIn(x: Scene, evs: seq<Event>)
    requires x.cfg.bucket.rate > 0.0 && !Grantable(x.cfg, 34)
    ensures forall pid :: !CanGetIn(x.cfg, evs, pid, Body(x))
  {
    forall pid ensures !CanGetIn(x.cfg, evs, pid, Body(x)) {
      if more :| Forward(evs + more, |evs|) && GotIn(Run(x.cfg, Init, evs + more), pid, Body(x)) {
        GotInFits(x.cfg, evs + more, pid, Body(x));
        BodyPassesScreen(x);
      }
    }
  }
}
