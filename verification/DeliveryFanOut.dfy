/**
  The step system as one fan-out sees it: every run of the relay, looked at from one push and the
  array it reads, is a run of that fan-out against its array.
 */
module DeliveryFanOut {
  import opened Base
  import opened FrameCodec
  import opened Inbox
  import opened Router
  import opened Delivery
  import opened DeliveryInvariants
  import opened DeliveryLists
  import opened DeliveryWake
  import opened DeliveryTheorems
  import opened DeliveryReach
  import opened DeliveryStuck
  import W = SessionWriter
  import N = Notifier
  import F = FanOut

  // ---------------------------------------------------------------- what the fan-out sees

  predicate FansOn(s: State, pid: nat) {
    pid in s.pushes && s.pushes[pid].Fanning? && s.pushes[pid].scan.limit > 0
  }

  /** The fan-out can still come to the channel: it has it in hand or in an unread slot. */
  predicate InSight(s: State, pid: nat, ch: nat)
    requires FansOn(s, pid)
  {
    F.Ahead(SlotsAt(s.lists.heap, s.pushes[pid].arr), s.pushes[pid].scan, ch)
  }

  /** The view has the push's slots and scan, the length of its list if that is still in the array,
      and as closed only closed channels, among them all that the fan-out can come to. */
  ghost predicate Sees(s: State, pid: nat, v: F.View) {
    && FansOn(s, pid) && !v.panicked && v.len <= |v.slots|
    && v.slots == SlotsAt(s.lists.heap, s.pushes[pid].arr) && v.scan == s.pushes[pid].scan
    && (Current(s.lists, s.pushes[pid]) ==> v.len == s.lists.subs[s.pushes[pid].row.recipient].len)
    && (forall ch :: ch in v.closed ==> ClosedIn(s, ch))
    && (forall ch :: InSight(s, pid, ch) && ClosedIn(s, ch) ==> ch in v.closed)
  }

  /** The header has just been taken. */
  function ViewOf(s: State, pid: nat): F.View
    requires FansOn(s, pid)
  {
    var p := s.pushes[pid];
    F.View(SlotsAt(s.lists.heap, p.arr), p.scan.limit, p.scan, {}, {}, false)
  }

  predicate Removes(s: State, o: nat, k: Key) {
    o in s.sessions && s.sessions[o].cancelled && s.sessions[o].stage.Listening? && s.sessions[o].key == k
  }

  predicate Appends(s: State, o: nat, k: Key) {
    o in s.sessions && s.sessions[o].pc.Acquired? && s.sessions[o].key == k && N.HasSpare(s.lists, k)
  }

  /** What an event of the relay is to the fan-out. */
  function Micros(s: State, pid: nat, ev: Event): seq<F.Micro>
    requires FansOn(s, pid)
  {
    var p, k := s.pushes[pid], s.pushes[pid].row.recipient;
    match ev
    case NotifyRead(q) => if q == pid then [F.Read] else []
    case NotifySend(q) => if q == pid then [F.Send] else []
    case CloseChannel(o) => if o in s.sessions && s.sessions[o].stage.Removed? then [F.Close(o)] else []
    case Subscribe(o, ok, _) => if ok && Current(s.lists, p) && Appends(s, o, k) then [F.Append(o)] else []
    case Unsubscribe(o) =>
      if Current(s.lists, p) && Removes(s, o, k) && o in N.Listed(s.lists, k) then
        var i := N.IndexOf(N.Listed(s.lists, k), o);
        F.Shifts(i, s.lists.subs[k].len - 1 - i) + [F.Shrink]
      else []
    case _ => []
  }

  function MicroRun(cfg: Config, s: State, pid: nat, evs: seq<Event>): seq<F.Micro> {
    if evs == [] then []
    else
      var init := evs[..|evs| - 1];
      MicroRun(cfg, s, pid, init)
      + if FansOn(Run(cfg, s, init), pid) then Micros(Run(cfg, s, init), pid, evs[|evs| - 1]) else []
  }

  lemma OneMicro(v: F.View, e: F.Micro)
    ensures F.Run(v, [e]) == F.Do(v, e)
  {
    assert [e][..0] == [];
    assert F.Run(v, []) == v;
  }

  lemma {:induction false} MicrosConcat(v: F.View, a: seq<F.Micro>, b: seq<F.Micro>)
    ensures F.Run(v, a + b) == F.Run(F.Run(v, a), b)
  {
    if b == [] {
      assert a + b == a;
    } else {
      MicrosConcat(v, a, b[..|b| - 1]);
      assert (a + b)[..|a + b| - 1] == a + b[..|b| - 1];
    }
  }

  // ---------------------------------------------------------------- steps the fan-out does not see

  /** Neither the array nor its list nor any channel's close has changed. */
  ghost predicate Unseen(s: State, s': State, pid: nat)
    requires FansOn(s, pid)
  {
    && FansOn(s', pid) && s'.pushes[pid] == s.pushes[pid]
    && SlotsAt(s'.lists.heap, s.pushes[pid].arr) == SlotsAt(s.lists.heap, s.pushes[pid].arr)
    && (Current(s'.lists, s.pushes[pid]) ==>
          && Current(s.lists, s.pushes[pid])
          && s'.lists.subs[s.pushes[pid].row.recipient].len == s.lists.subs[s.pushes[pid].row.recipient].len)
    && (forall ch :: ClosedIn(s', ch) <==> ClosedIn(s, ch))
  }

  lemma UnseenSees(s: State, s': State, pid: nat, v: F.View)
    requires Sees(s, pid, v) && Unseen(s, s', pid)
    ensures Sees(s', pid, v)
  {
    forall ch | InSight(s', pid, ch) && ClosedIn(s', ch) ensures ch in v.closed {
      assert InSight(s, pid, ch);
    }
  }

  lemma AtUnseen(cfg: Config, s: State, o: nat, e: LocalEvent, pid: nat)
    requires FansOn(s, pid)
    ensures Unseen(s, AtStep(cfg, s, o, e), pid)
  {
    if o in s.sessions {
      KeepsStage(cfg.cipher, s.table, s.sessions[o], e);
    }
  }

  lemma KeepsStage(c: W.Cipher, t: Table, ss: Session, e: LocalEvent)
    ensures Local(c, t, ss, e).stage == ss.stage
  {
  }

  lemma InboundUnseen(cfg: Config, s: State, o: nat, plain: Bytes, fault: bool, pid: nat)
    requires FansOn(s, pid) && FansOn(InboundStep(cfg, s, o, plain, fault), pid)
    ensures Unseen(s, InboundStep(cfg, s, o, plain, fault), pid)
  {
    if o in s.sessions {
      SayIsOutput(cfg, s, o, W.Complain);
      SayIsOutput(cfg, s, o, W.Echo);
    }
    AtUnseen(cfg, s, o, Output(W.Complain), pid);
    AtUnseen(cfg, s, o, Output(W.Echo), pid);
  }

  lemma PushUnseen(cfg: Config, s: State, ev: Event, pid: nat)
    requires ev.PushFrame? && FansOn(s, pid) && FansOn(Step(cfg, s, ev), pid)
    ensures Unseen(s, Step(cfg, s, ev), pid)
  {
    if ev.pid !in s.pushes {
      match Parse(ev.plain)
      case Parsed(t, body) =>
        AfterPushUnseen(s, ev.pid, body, Push(cfg, s.buckets, s.table, body, ev.clock, ev.wall, ev.fault), pid);
      case _ =>
    }
  }

  lemma AfterPushUnseen(s: State, o: nat, body: Bytes, r: PushResult, pid: nat)
    requires FansOn(s, pid)
    ensures o != pid ==> Unseen(s, AfterPush(s, o, body, r), pid)
  {
  }

  lemma LeaveUnseen(cfg: Config, s: State, o: nat, pid: nat)
    requires FansOn(s, pid) && o in s.sessions
    ensures Unseen(s, Leave(cfg, s, o), pid)
  {
  }

  lemma OtherSendUnseen(cfg: Config, s: State, o: nat, pid: nat)
    requires FansOn(s, pid) && FansOn(SendStep(cfg, s, o), pid) && o != pid
    ensures Unseen(s, SendStep(cfg, s, o), pid)
  {
    if Holds(s, o) && !ClosedIn(s, s.pushes[o].scan.hand.value) {
      AtUnseen(cfg, s, s.pushes[o].scan.hand.value, Signal, pid);
    }
  }

  lemma OtherPushUnseen(s: State, o: nat, p: Progress, pid: nat)
    requires FansOn(s, pid) && o != pid
    ensures Unseen(s, s.(pushes := s.pushes[o := p]), pid)
  {
  }

  /** Another push's header and reads, and any ack. */
  lemma QuietUnseen(s: State, o: nat, pid: nat)
    requires FansOn(s, pid)
    ensures Unseen(s, BeginStep(s, o), pid) && Unseen(s, AckStep(s, o), pid)
    ensures o != pid ==> Unseen(s, ReadStep(s, o), pid)
  {
    if o != pid && o in s.pushes {
      if s.pushes[o].Fanning? { OtherPushUnseen(s, o, ReadStep(s, o).pushes[o], pid); }
      OtherPushUnseen(s, o, BeginStep(s, o).pushes[o], pid);
      OtherPushUnseen(s, o, AckStep(s, o).pushes[o], pid);
    }
  }

  // ---------------------------------------------------------------- its own steps

  lemma ReadSees(s: State, pid: nat, v: F.View)
    requires Sees(s, pid, v) && FansOn(ReadStep(s, pid), pid)
    ensures Sees(ReadStep(s, pid), pid, F.Do(v, F.Read)) && F.Do(v, F.Read).sent == v.sent
  {
    var s' := ReadStep(s, pid);
    forall ch | InSight(s', pid, ch) && ClosedIn(s', ch) ensures ch in v.closed {
      ReadSight(s, pid, ch);
    }
  }

  lemma ReadSight(s: State, pid: nat, ch: nat)
    requires FansOn(s, pid) && FansOn(ReadStep(s, pid), pid)
    ensures InSight(ReadStep(s, pid), pid, ch) <==> InSight(s, pid, ch)
  {
    if s.pushes[pid].scan.hand.None? {
      ReadKeeps(s.lists.heap, s, pid, ch, s.pushes[pid].row.recipient);
    }
  }

  lemma SendSees(cfg: Config, s: State, pid: nat, v: F.View)
    requires Sees(s, pid, v) && FansOn(SendStep(cfg, s, pid), pid)
    ensures Sees(SendStep(cfg, s, pid), pid, F.Do(v, F.Send))
    ensures F.Do(v, F.Send).sent
            == v.sent + if s.pushes[pid].scan.hand.Some? then {s.pushes[pid].scan.hand.value} else {}
  {
    var s' := SendStep(cfg, s, pid);
    if Holds(s, pid) {
      AtUnseen(cfg, s, s.pushes[pid].scan.hand.value, Signal, pid);
      forall ch | InSight(s', pid, ch) && ClosedIn(s', ch) ensures ch in v.closed {
        assert InSight(s, pid, ch);
      }
    }
  }

  // ---------------------------------------------------------------- what is done to its array

  lemma CloseSees(s: State, o: nat, pid: nat, v: F.View)
    requires Sees(s, pid, v) && o in s.sessions && s.sessions[o].stage.Removed?
    ensures Sees(CloseStep(s, o), pid, F.Do(v, F.Close(o))) && F.Do(v, F.Close(o)).sent == v.sent
  {
    var s' := CloseStep(s, o);
    forall ch | InSight(s', pid, ch) && ClosedIn(s', ch) ensures ch in v.closed + {o} {
      assert InSight(s, pid, ch);
    }
  }

  /** The fan-out's array was made for its key. */
  lemma OwnArrayOf(s: State, pid: nat)
    requires ListsOk(s) && FansOn(s, pid)
    ensures var p := s.pushes[pid]; p.arr < |s.lists.heap| && s.lists.heap[p.arr].owner == p.row.recipient
  {
    assert ScanOk(s.lists.heap, s.sessions, s.pushes[pid]);
  }

  /** A subscription in place joins the list behind its last slot. */
  lemma AppendSees(cfg: Config, s: State, o: nat, spare: nat, pid: nat, v: F.View)
    requires ListsOk(s) && Sees(s, pid, v)
    requires Current(s.lists, s.pushes[pid]) && Appends(s, o, s.pushes[pid].row.recipient)
    ensures var s' := Step(cfg, s, Subscribe(o, true, spare));
            Sees(s', pid, F.Do(v, F.Append(o))) && F.Do(v, F.Append(o)).sent == v.sent
  {
    var s' := Step(cfg, s, Subscribe(o, true, spare));
    JoinSessions(cfg, s, o, spare);
    assert Placed(s.sessions[o]);
    forall ch | InSight(s', pid, ch) && ClosedIn(s', ch) ensures ch in v.closed {
      assert ch != o && ClosedIn(s, ch);
      InSightBefore(v.slots, v.len, v.scan, o, ch);
      assert InSight(s, pid, ch);
    }
  }

  lemma InSightBefore(slots: seq<nat>, len: nat, sc: F.Scan, o: nat, ch: nat)
    requires len <= |slots| && ch != o && F.Ahead(N.Put(slots, len, o), sc, ch)
    ensures F.Ahead(slots, sc, ch)
  {
  }

  /** Any other subscription leaves the fan-out's array, or moves its list away. */
  lemma JoinUnseen(cfg: Config, s: State, o: nat, spare: nat, pid: nat)
    requires ListsOk(s) && FansOn(s, pid) && o in s.sessions && s.sessions[o].pc.Acquired?
    requires !(Current(s.lists, s.pushes[pid]) && Appends(s, o, s.pushes[pid].row.recipient))
    ensures Unseen(s, Step(cfg, s, Subscribe(o, true, spare)), pid)
  {
    JoinSessions(cfg, s, o, spare);
    assert Placed(s.sessions[o]);
    OwnArrayOf(s, pid);
    JoinElsewhere(s.lists, s.sessions[o].key, o, spare, s.pushes[pid]);
  }

  lemma JoinElsewhere(lists: N.Lists, l: Key, o: nat, spare: nat, p: Progress)
    requires N.Sound(lists) && p.Fanning? && p.arr < |lists.heap| && lists.heap[p.arr].owner == p.row.recipient
    requires !(Current(lists, p) && l == p.row.recipient && N.HasSpare(lists, l))
    ensures var lists' := N.Subscribed(lists, l, o, spare);
            && SlotsAt(lists'.heap, p.arr) == SlotsAt(lists.heap, p.arr)
            && (Current(lists', p) ==>
                  && Current(lists, p)
                  && lists'.subs[p.row.recipient].len == lists.subs[p.row.recipient].len)
  {
  }

  /** A removal from the list leaves the sessions' channels as they are, and the array shifted. */
  lemma RemovalLeaves(cfg: Config, s: State, o: nat, i: nat, pid: nat, v: F.View)
    requires ListsOk(s) && Sees(s, pid, v) && Current(s.lists, s.pushes[pid])
    requires Removes(s, o, s.pushes[pid].row.recipient) && i < v.len && v.slots[i] == o
    ensures var s' := Step(cfg, s, Unsubscribe(o));
            && s'.pushes == s.pushes && (forall ch :: ClosedIn(s', ch) <==> ClosedIn(s, ch))
            && SlotsAt(s'.lists.heap, s.pushes[pid].arr) == N.Shifted(v.slots, v.len, i)
            && (Current(s'.lists, s.pushes[pid]) ==> s'.lists.subs[s.pushes[pid].row.recipient].len == v.len - 1)
  {
    ListedFacts(s, pid);
    RemovalSessions(cfg, s, o);
    RemovalArray(s.lists, s.pushes[pid].row.recipient, i);
  }

  /** The shift slot by slot, and then the shorter slice. */
  lemma RemovalSees(cfg: Config, s: State, o: nat, i: nat, pid: nat, v: F.View)
    requires ListsOk(s) && Sees(s, pid, v) && Current(s.lists, s.pushes[pid])
    requires Removes(s, o, s.pushes[pid].row.recipient) && i < v.len && v.slots[i] == o
    ensures var w := F.Run(v, F.Shifts(i, v.len - 1 - i) + [F.Shrink]);
            Sees(Step(cfg, s, Unsubscribe(o)), pid, w) && w.sent == v.sent
  {
    ListedFacts(s, pid);
    RemovalLeaves(cfg, s, o, i, pid, v);
    F.RemovalIsShifts(v, i);
    ShiftedSees(s, Step(cfg, s, Unsubscribe(o)), i, pid, v);
  }

  lemma ShiftedSees(s: State, s': State, i: nat, pid: nat, v: F.View)
    requires Sees(s, pid, v) && Current(s.lists, s.pushes[pid]) && ListOpen(s, s.pushes[pid]) && i < v.len
    requires s'.pushes == s.pushes && forall ch :: ClosedIn(s', ch) <==> ClosedIn(s, ch)
    requires SlotsAt(s'.lists.heap, s.pushes[pid].arr) == N.Shifted(v.slots, v.len, i)
    requires Current(s'.lists, s.pushes[pid]) ==> s'.lists.subs[s.pushes[pid].row.recipient].len == v.len - 1
    ensures Sees(s', pid, v.(slots := N.Shifted(v.slots, v.len, i), len := v.len - 1))
  {
    forall ch | InSight(s', pid, ch) && ClosedIn(s', ch) ensures ch in v.closed {
      ShiftedClosed(s, pid, v, i, ch);
    }
  }

  lemma ShiftedClosed(s: State, pid: nat, v: F.View, i: nat, ch: nat)
    requires Sees(s, pid, v) && Current(s.lists, s.pushes[pid]) && ListOpen(s, s.pushes[pid]) && ClosedIn(s, ch)
    requires i < v.len && F.Ahead(N.Shifted(v.slots, v.len, i), v.scan, ch)
    ensures ch in v.closed
  {
    ShiftedSight(v, i, ch);
    if F.Ahead(v.slots, v.scan, ch) {
      assert InSight(s, pid, ch);
    } else {
      OpenBehind(s, pid, v, ch);
    }
  }

  /** What the shift brings into sight was in the list. */
  lemma ShiftedSight(v: F.View, i: nat, ch: nat)
    requires i < v.len <= |v.slots| && F.Ahead(N.Shifted(v.slots, v.len, i), v.scan, ch)
    ensures F.Ahead(v.slots, v.scan, ch) || exists j: nat :: j < v.len && v.slots[j] == ch
  {
    var after := N.Shifted(v.slots, v.len, i);
    if v.scan.hand != Some(ch) {
      var j: nat :| v.scan.cursor <= j < v.scan.limit && j < |after| && after[j] == ch;
      assert after[j] == v.slots[if i <= j < v.len - 1 then j + 1 else j];
    }
  }

  lemma OpenBehind(s: State, pid: nat, v: F.View, ch: nat)
    requires Sees(s, pid, v) && Current(s.lists, s.pushes[pid]) && ListOpen(s, s.pushes[pid])
    requires exists j: nat :: j < v.len && v.slots[j] == ch
    ensures !ClosedIn(s, ch)
  {
    var j: nat :| j < v.len && v.slots[j] == ch;
    assert !ClosedAt(s.sessions, v.slots[j]);
  }

  /** Any other removal leaves the fan-out's array. */
  lemma RemovalUnseen(cfg: Config, s: State, o: nat, pid: nat)
    requires ListsOk(s) && FansOn(s, pid) && o in s.sessions && Removes(s, o, s.sessions[o].key)
    requires !(Current(s.lists, s.pushes[pid]) && Removes(s, o, s.pushes[pid].row.recipient))
    ensures Unseen(s, Step(cfg, s, Unsubscribe(o)), pid)
  {
    var i := ListPlace(s, o);
    RemovalSessions(cfg, s, o);
    OwnArrayOf(s, pid);
    RemovalElsewhere(s.lists, s.sessions[o].key, i, s.pushes[pid]);
  }

  lemma RemovalElsewhere(lists: N.Lists, l: Key, i: nat, p: Progress)
    requires N.Sound(lists) && p.Fanning? && p.arr < |lists.heap| && lists.heap[p.arr].owner == p.row.recipient
    requires l in lists.subs && i < lists.subs[l].len && N.Distinct(N.Listed(lists, l))
    requires !(Current(lists, p) && l == p.row.recipient)
    ensures var lists' := N.Unsubscribed(lists, l, lists.heap[lists.subs[l].arr].slots[i]);
            && SlotsAt(lists'.heap, p.arr) == SlotsAt(lists.heap, p.arr)
            && (Current(lists', p) ==>
                  && Current(lists, p)
                  && lists'.subs[p.row.recipient].len == lists.subs[p.row.recipient].len)
  {
    RemovalArray(lists, l, i);
    OtherSlice(lists, l, p);
  }

  /** l's list is in another array. */
  lemma OtherSlice(lists: N.Lists, l: Key, p: Progress)
    requires N.Sound(lists) && p.Fanning? && p.arr < |lists.heap| && lists.heap[p.arr].owner == p.row.recipient
    requires l in lists.subs && !(Current(lists, p) && l == p.row.recipient)
    ensures p.arr != lists.subs[l].arr
  {
    assert N.Owns(lists.heap, lists.subs[l], l);
  }

  // ---------------------------------------------------------------- every step and every run

  /** The channel the fan-out sends to in this step. */
  function SendsTo(s: State, pid: nat, ev: Event): set<nat>
    requires FansOn(s, pid)
  {
    if ev == NotifySend(pid) && s.pushes[pid].scan.hand.Some? then {s.pushes[pid].scan.hand.value} else {}
  }

  /** After the event the fan-out's view is what its own steps make of it. */
  ghost predicate Followed(cfg: Config, s: State, ev: Event, pid: nat, v: F.View)
    requires FansOn(s, pid)
  {
    var w := F.Run(v, Micros(s, pid, ev));
    Sees(Step(cfg, s, ev), pid, w) && w.sent == v.sent + SendsTo(s, pid, ev)
  }

  lemma UnseenFollowed(cfg: Config, s: State, ev: Event, pid: nat, v: F.View)
    requires Sees(s, pid, v) && Unseen(s, Step(cfg, s, ev), pid) && Micros(s, pid, ev) == [] && ev != NotifySend(pid)
    ensures Followed(cfg, s, ev, pid, v)
  {
    UnseenSees(s, Step(cfg, s, ev), pid, v);
  }

  lemma SubscribeFollowed(cfg: Config, s: State, o: nat, ok: bool, spare: nat, pid: nat, v: F.View)
    requires ListsOk(s) && Sees(s, pid, v)
    ensures Followed(cfg, s, Subscribe(o, ok, spare), pid, v)
  {
    var ev := Subscribe(o, ok, spare);
    if o in s.sessions && s.sessions[o].pc.Acquired? {
      if !ok {
        LeaveUnseen(cfg, s, o, pid);
        UnseenFollowed(cfg, s, ev, pid, v);
      } else if Current(s.lists, s.pushes[pid]) && Appends(s, o, s.pushes[pid].row.recipient) {
        AppendSees(cfg, s, o, spare, pid, v);
        OneMicro(v, F.Append(o));
      } else {
        JoinUnseen(cfg, s, o, spare, pid);
        UnseenFollowed(cfg, s, ev, pid, v);
      }
    } else {
      UnseenFollowed(cfg, s, ev, pid, v);
    }
  }

  lemma RemovalMicros(s: State, o: nat, i: nat, pid: nat, v: F.View)
    requires ListsOk(s) && Sees(s, pid, v) && Current(s.lists, s.pushes[pid])
    requires Removes(s, o, s.pushes[pid].row.recipient) && i < v.len && v.slots[i] == o
    ensures Micros(s, pid, Unsubscribe(o)) == F.Shifts(i, v.len - 1 - i) + [F.Shrink]
  {
    ListedFacts(s, pid);
    ListedAt(s.lists, s.pushes[pid].row.recipient, i);
  }

  lemma RemovalFollowed(cfg: Config, s: State, o: nat, pid: nat, v: F.View)
    requires ListsOk(s) && Sees(s, pid, v) && Current(s.lists, s.pushes[pid])
    requires Removes(s, o, s.pushes[pid].row.recipient)
    ensures Followed(cfg, s, Unsubscribe(o), pid, v)
  {
    var i := ListPlace(s, o);
    RemovalMicros(s, o, i, pid, v);
    RemovalSees(cfg, s, o, i, pid, v);
  }

  lemma UnsubscribeFollowed(cfg: Config, s: State, o: nat, pid: nat, v: F.View)
    requires ListsOk(s) && Sees(s, pid, v)
    ensures Followed(cfg, s, Unsubscribe(o), pid, v)
  {
    if Current(s.lists, s.pushes[pid]) && Removes(s, o, s.pushes[pid].row.recipient) {
      RemovalFollowed(cfg, s, o, pid, v);
    } else {
      if o in s.sessions && Removes(s, o, s.sessions[o].key) {
        RemovalUnseen(cfg, s, o, pid);
      }
      UnseenFollowed(cfg, s, Unsubscribe(o), pid, v);
    }
  }

  lemma CloseFollowed(cfg: Config, s: State, o: nat, pid: nat, v: F.View)
    requires Sees(s, pid, v)
    ensures Followed(cfg, s, CloseChannel(o), pid, v)
  {
    if o in s.sessions && s.sessions[o].stage.Removed? {
      CloseSees(s, o, pid, v);
      OneMicro(v, F.Close(o));
    } else {
      UnseenFollowed(cfg, s, CloseChannel(o), pid, v);
    }
  }

  lemma TeardownFollowed(cfg: Config, s: State, o: nat, pid: nat, v: F.View)
    requires Sees(s, pid, v)
    ensures Followed(cfg, s, Teardown(o), pid, v)
  {
    if TeardownStep(cfg, s, o) != s {
      LeaveUnseen(cfg, s, o, pid);
    }
    UnseenFollowed(cfg, s, Teardown(o), pid, v);
  }

  lemma ReadFollowed(cfg: Config, s: State, o: nat, pid: nat, v: F.View)
    requires Sees(s, pid, v) && FansOn(ReadStep(s, o), pid)
    ensures Followed(cfg, s, NotifyRead(o), pid, v)
  {
    if o == pid {
      ReadSees(s, pid, v);
      OneMicro(v, F.Read);
    } else {
      QuietUnseen(s, o, pid);
      UnseenFollowed(cfg, s, NotifyRead(o), pid, v);
    }
  }

  lemma SendFollowed(cfg: Config, s: State, o: nat, pid: nat, v: F.View)
    requires Sees(s, pid, v) && FansOn(SendStep(cfg, s, o), pid)
    ensures Followed(cfg, s, NotifySend(o), pid, v)
  {
    if o == pid {
      SendSees(cfg, s, pid, v);
      OneMicro(v, F.Send);
    } else {
      OtherSendUnseen(cfg, s, o, pid);
      UnseenFollowed(cfg, s, NotifySend(o), pid, v);
    }
  }

  lemma SessionsFollowed(cfg: Config, s: State, ev: Event, pid: nat, v: F.View)
    requires ListsOk(s) && Sees(s, pid, v) && SessionEvent(ev)
    ensures Followed(cfg, s, ev, pid, v)
  {
    match ev
    case At(o, e) =>
      AtUnseen(cfg, s, o, e, pid);
      UnseenFollowed(cfg, s, ev, pid, v);
    case Connect(o, k) => UnseenFollowed(cfg, s, ev, pid, v);
    case Subscribe(o, ok, spare) => SubscribeFollowed(cfg, s, o, ok, spare, pid, v);
    case Unsubscribe(o) => UnsubscribeFollowed(cfg, s, o, pid, v);
    case CloseChannel(o) => CloseFollowed(cfg, s, o, pid, v);
    case Teardown(o) => TeardownFollowed(cfg, s, o, pid, v);
    case _ =>
  }

  lemma FramesFollowed(cfg: Config, s: State, ev: Event, pid: nat, v: F.View)
    requires Sees(s, pid, v) && FrameEvent(ev) && FansOn(Step(cfg, s, ev), pid)
    ensures Followed(cfg, s, ev, pid, v)
  {
    match ev
    case Inbound(o, plain, fault) => InboundUnseen(cfg, s, o, plain, fault, pid);
    case PushFrame(_, _, _, _, _) => PushUnseen(cfg, s, ev, pid);
    case _ =>
    UnseenFollowed(cfg, s, ev, pid, v);
  }

  lemma QuietFollowed(cfg: Config, s: State, ev: Event, o: nat, pid: nat, v: F.View)
    requires Sees(s, pid, v) && (ev == BeginNotify(o) || ev == AckPush(o))
    ensures Followed(cfg, s, ev, pid, v)
  {
    QuietUnseen(s, o, pid);
    UnseenFollowed(cfg, s, ev, pid, v);
  }

  lemma FanOutsFollowed(cfg: Config, s: State, ev: Event, pid: nat, v: F.View)
    requires Sees(s, pid, v) && FanOutEvent(ev) && FansOn(Step(cfg, s, ev), pid)
    ensures Followed(cfg, s, ev, pid, v)
  {
    match ev
    case NotifyRead(o) => ReadFollowed(cfg, s, o, pid, v);
    case NotifySend(o) => SendFollowed(cfg, s, o, pid, v);
    case BeginNotify(o) => QuietFollowed(cfg, s, ev, o, pid, v);
    case AckPush(o) => QuietFollowed(cfg, s, ev, o, pid, v);
    case _ =>
  }

  lemma StepFollowed(cfg: Config, s: State, ev: Event, pid: nat, v: F.View)
    requires ListsOk(s) && Sees(s, pid, v) && FansOn(Step(cfg, s, ev), pid)
    ensures Followed(cfg, s, ev, pid, v)
  {
    if SessionEvent(ev) {
      SessionsFollowed(cfg, s, ev, pid, v);
    } else if FanOutEvent(ev) {
      FanOutsFollowed(cfg, s, ev, pid, v);
    } else {
      FramesFollowed(cfg, s, ev, pid, v);
    }
  }

  /** The push fans out from the run's start to its end. */
  predicate FansThroughout(cfg: Config, s: State, evs: seq<Event>, pid: nat) {
    forall i :: 0 <= i <= |evs| ==> FansOn(Run(cfg, s, evs[..i]), pid)
  }

  /** Event i is the fan-out's send to the channel. */
  predicate SentAt(cfg: Config, s: State, evs: seq<Event>, pid: nat, i: nat, ch: nat)
    requires i < |evs|
  {
    var u := Run(cfg, s, evs[..i]);
    FansOn(u, pid) && ch in SendsTo(u, pid, evs[i])
  }

  predicate SentTo(cfg: Config, s: State, evs: seq<Event>, pid: nat, ch: nat) {
    exists i: nat :: i < |evs| && SentAt(cfg, s, evs, pid, i, ch)
  }

  lemma SentToSnoc(cfg: Config, s: State, evs: seq<Event>, pid: nat, ch: nat)
    requires evs != [] && FansOn(Run(cfg, s, evs[..|evs| - 1]), pid)
    ensures SentTo(cfg, s, evs, pid, ch)
            <==> SentTo(cfg, s, evs[..|evs| - 1], pid, ch)
                 || ch in SendsTo(Run(cfg, s, evs[..|evs| - 1]), pid, evs[|evs| - 1])
  {
    var n := |evs| - 1;
    forall i: nat | i < n ensures SentAt(cfg, s, evs[..n], pid, i, ch) <==> SentAt(cfg, s, evs, pid, i, ch) {
      assert evs[..n][..i] == evs[..i];
    }
    assert SentAt(cfg, s, evs, pid, n, ch) <==> ch in SendsTo(Run(cfg, s, evs[..n]), pid, evs[n]);
  }

  lemma ShorterFans(cfg: Config, s: State, evs: seq<Event>, pid: nat)
    requires evs != [] && FansThroughout(cfg, s, evs, pid)
    ensures FansThroughout(cfg, s, evs[..|evs| - 1], pid)
    ensures FansOn(Run(cfg, s, evs[..|evs| - 1]), pid) && FansOn(Run(cfg, s, evs), pid)
  {
    var n := |evs| - 1;
    assert forall i :: 0 <= i <= n ==> evs[..n][..i] == evs[..i];
    assert evs[..|evs|] == evs;
    assert FansOn(Run(cfg, s, evs[..n]), pid) && FansOn(Run(cfg, s, evs[..|evs|]), pid);
  }

  /** The whole run of the relay, as the fan-out sees it, is a run of the fan-out. */
  lemma {:induction false} RunFollowed(cfg: Config, s: State, evs: seq<Event>, pid: nat, v: F.View)
    requires cfg.Ok() && Inv(cfg, s) && Sees(s, pid, v) && v.sent == {} && FansThroughout(cfg, s, evs, pid)
    ensures Sees(Run(cfg, s, evs), pid, F.Run(v, MicroRun(cfg, s, pid, evs)))
    ensures forall ch :: ch in F.Run(v, MicroRun(cfg, s, pid, evs)).sent <==> SentTo(cfg, s, evs, pid, ch)
  {
    if evs != [] {
      var init := evs[..|evs| - 1];
      ShorterFans(cfg, s, evs, pid);
      RunFollowed(cfg, s, init, pid, v);
      LastFollowed(cfg, s, evs, pid, v);
      forall ch ensures ch in F.Run(v, MicroRun(cfg, s, pid, evs)).sent <==> SentTo(cfg, s, evs, pid, ch) {
        SentToSnoc(cfg, s, evs, pid, ch);
      }
    }
  }

  lemma LastFollowed(cfg: Config, s: State, evs: seq<Event>, pid: nat, v: F.View)
    requires cfg.Ok() && Inv(cfg, s) && evs != [] && FansOn(Run(cfg, s, evs[..|evs| - 1]), pid)
    requires var init := evs[..|evs| - 1]; Sees(Run(cfg, s, init), pid, F.Run(v, MicroRun(cfg, s, pid, init)))
    requires FansOn(Run(cfg, s, evs), pid)
    ensures Sees(Run(cfg, s, evs), pid, F.Run(v, MicroRun(cfg, s, pid, evs)))
    ensures F.Run(v, MicroRun(cfg, s, pid, evs)).sent
            == F.Run(v, MicroRun(cfg, s, pid, evs[..|evs| - 1])).sent
               + SendsTo(Run(cfg, s, evs[..|evs| - 1]), pid, evs[|evs| - 1])
  {
    var init, last := evs[..|evs| - 1], evs[|evs| - 1];
    RunInv(cfg, s, init);
    StepFollowed(cfg, Run(cfg, s, init), last, pid, F.Run(v, MicroRun(cfg, s, pid, init)));
    MicrosConcat(v, MicroRun(cfg, s, pid, init), Micros(Run(cfg, s, init), pid, last));
  }

  // ---------------------------------------------------------------- a channel listed at the start

  /** The push's fan-out has just taken the header of its key's list. */
  predicate HeaderTaken(s: State, pid: nat) {
    && FansOn(s, pid) && Current(s.lists, s.pushes[pid])
    && s.pushes[pid].scan == F.Scan(s.lists.subs[s.pushes[pid].row.recipient].len, 0, None)
  }

  /** It does so when it begins, if its key has a list. */
  lemma BeginTakesHeader(s: State, pid: nat)
    requires ListsOk(s) && pid in s.pushes && s.pushes[pid].Committed? && s.pushes[pid].row.recipient in s.lists.subs
    ensures HeaderTaken(BeginStep(s, pid), pid) && BeginStep(s, pid).lists == s.lists
  {
    var k := s.pushes[pid].row.recipient;
    assert N.Owns(s.lists.heap, s.lists.subs[k], k);
  }

  lemma HeaderSees(s: State, pid: nat)
    requires ListsOk(s) && HeaderTaken(s, pid)
    ensures F.Started(ViewOf(s, pid)) && Sees(s, pid, ViewOf(s, pid))
    ensures ViewOf(s, pid).slots[..ViewOf(s, pid).len] == N.Listed(s.lists, s.pushes[pid].row.recipient)
  {
    ListedFacts(s, pid);
    assert ScanOk(s.lists.heap, s.sessions, s.pushes[pid]);
    forall ch | InSight(s, pid, ch) ensures !ClosedIn(s, ch) {
      var sc, slots := s.pushes[pid].scan, SlotsAt(s.lists.heap, s.pushes[pid].arr);
      var j: nat :| sc.cursor <= j < sc.limit && j < |slots| && slots[j] == ch;
      assert !ClosedAt(s.sessions, slots[j]);
    }
  }

  /** The session has subscribed, now or earlier. */
  predicate HasJoined(s: State, ch: nat) {
    ch in s.sessions && !s.sessions[ch].pc.Acquired?
  }

  lemma AtJoined(cfg: Config, s: State, o: nat, e: LocalEvent, ch: nat)
    requires HasJoined(s, ch)
    ensures HasJoined(AtStep(cfg, s, o, e), ch)
  {
  }

  lemma InboundJoined(cfg: Config, s: State, o: nat, plain: Bytes, fault: bool, ch: nat)
    requires HasJoined(s, ch)
    ensures var s' := InboundStep(cfg, s, o, plain, fault); s' == Restarted(s) || HasJoined(s', ch)
  {
    InboundShape(cfg, s, o, plain, fault);
  }

  lemma SendJoined(cfg: Config, s: State, o: nat, ch: nat)
    requires HasJoined(s, ch)
    ensures SendStep(cfg, s, o) == Restarted(s) || HasJoined(SendStep(cfg, s, o), ch)
  {
    if Holds(s, o) {
      AtJoined(cfg, s, s.pushes[o].scan.hand.value, Signal, ch);
    }
  }

  lemma ListJoined(cfg: Config, s: State, o: nat, ok: bool, spare: nat, ch: nat)
    requires HasJoined(s, ch)
    ensures HasJoined(SubscribeStep(cfg, s, o, ok, spare), ch) && HasJoined(UnsubscribeStep(s, o), ch)
    ensures HasJoined(CloseStep(s, o), ch) && HasJoined(TeardownStep(cfg, s, o), ch)
  {
  }

  /** Nobody subscribes twice. */
  lemma StepJoined(cfg: Config, s: State, ev: Event, ch: nat)
    requires HasJoined(s, ch)
    ensures Step(cfg, s, ev) == Restarted(s) || HasJoined(Step(cfg, s, ev), ch)
  {
    match ev
    case At(o, e) => AtJoined(cfg, s, o, e, ch);
    case Subscribe(o, ok, spare) => ListJoined(cfg, s, o, ok, spare, ch);
    case Unsubscribe(o) => ListJoined(cfg, s, o, true, 0, ch);
    case CloseChannel(o) => ListJoined(cfg, s, o, true, 0, ch);
    case Teardown(o) => ListJoined(cfg, s, o, true, 0, ch);
    case Inbound(o, plain, fault) => InboundJoined(cfg, s, o, plain, fault, ch);
    case PushFrame(p, plain, clock, wall, fault) => PushKeepsSessions(cfg, s, p, plain, clock, wall, fault);
    case NotifySend(o) => SendJoined(cfg, s, o, ch);
    case _ =>
  }

  lemma NotAppended(s: State, pid: nat, ev: Event, ch: nat)
    requires FansOn(s, pid) && HasJoined(s, ch)
    ensures F.Append(ch) !in Micros(s, pid, ev)
  {
  }

  lemma {:induction false} NeverAppended(cfg: Config, s: State, evs: seq<Event>, pid: nat, ch: nat)
    requires HasJoined(s, ch) && FansThroughout(cfg, s, evs, pid)
    ensures HasJoined(Run(cfg, s, evs), ch) && F.Append(ch) !in MicroRun(cfg, s, pid, evs)
  {
    if evs != [] {
      var init := evs[..|evs| - 1];
      ShorterFans(cfg, s, evs, pid);
      NeverAppended(cfg, s, init, pid, ch);
      StepJoined(cfg, Run(cfg, s, init), evs[|evs| - 1], ch);
      NotAppended(Run(cfg, s, init), pid, evs[|evs| - 1], ch);
    }
  }

  // ---------------------------------------------------------------- the relay's fan-outs, exactly

  /** A run that the fan-out starts, with its header, and goes through to the end. */
  ghost predicate FanOutRun(cfg: Config, s: State, pid: nat, evs: seq<Event>) {
    Inv(cfg, s) && HeaderTaken(s, pid) && FansThroughout(cfg, s, evs, pid) && FansOn(Run(cfg, s, evs), pid)
  }

  /** What the relay's run is to the fan-out. */
  function Projected(cfg: Config, s: State, pid: nat, evs: seq<Event>): F.View
    requires FansOn(s, pid)
  {
    F.Run(ViewOf(s, pid), MicroRun(cfg, s, pid, evs))
  }

  lemma RunProjects(cfg: Config, s: State, pid: nat, evs: seq<Event>)
    requires cfg.Ok() && FanOutRun(cfg, s, pid, evs)
    ensures F.Started(ViewOf(s, pid)) && Sees(Run(cfg, s, evs), pid, Projected(cfg, s, pid, evs))
    ensures forall ch :: ch in Projected(cfg, s, pid, evs).sent <==> SentTo(cfg, s, evs, pid, ch)
  {
    HeaderSees(s, pid);
    RunFollowed(cfg, s, evs, pid, ViewOf(s, pid));
  }

  lemma ListedHasJoined(s: State, k: Key, ch: nat)
    requires ListsOk(s) && ch in N.Listed(s.lists, k)
    ensures HasJoined(s, ch)
  {
    assert Placed(s.sessions[ch]);
  }

  /** Over every run of the relay: a fan-out that has come to its end has not sent to a channel
      listed when its header was taken exactly when some write to its array, made by a removal or
      a subscription of the run, took the channel's last unread slot. */
  lemma RelayMissesExactly(cfg: Config, s: State, pid: nat, evs: seq<Event>, ch: nat)
    requires cfg.Ok() && FanOutRun(cfg, s, pid, evs) && ch in N.Listed(s.lists, s.pushes[pid].row.recipient)
    requires var sc := Run(cfg, s, evs).pushes[pid].scan; sc.hand.None? && sc.cursor >= sc.limit
    ensures !SentTo(cfg, s, evs, pid, ch)
            <==> F.EverOvertaken(ViewOf(s, pid), MicroRun(cfg, s, pid, evs), ch)
  {
    HeaderSees(s, pid);
    RunProjects(cfg, s, pid, evs);
    ListedHasJoined(s, s.pushes[pid].row.recipient, ch);
    NeverAppended(cfg, s, evs, pid, ch);
    F.MissedExactly(ViewOf(s, pid), MicroRun(cfg, s, pid, evs), ch);
  }

  /** Over every run of the relay: the send that a fan-out has before it stops the process exactly
      when a step of the run since the header was taken has closed the channel in hand. */
  lemma RelayHitsExactly(cfg: Config, s: State, pid: nat, evs: seq<Event>)
    requires cfg.Ok() && FanOutRun(cfg, s, pid, evs) && Holds(Run(cfg, s, evs), pid)
    ensures var u := Run(cfg, s, evs);
            Step(cfg, u, NotifySend(pid)) == Restarted(u)
            <==> F.Close(u.pushes[pid].scan.hand.value) in MicroRun(cfg, s, pid, evs)
  {
    var u := Run(cfg, s, evs);
    RunProjects(cfg, s, pid, evs);
    assert InSight(u, pid, u.pushes[pid].scan.hand.value);
    F.ClosedExactly(ViewOf(s, pid), MicroRun(cfg, s, pid, evs), u.pushes[pid].scan.hand.value);
    HitIsRestart(cfg, u, pid);
  }

  lemma HitIsRestart(cfg: Config, s: State, pid: nat)
    requires Holds(s, pid)
    ensures Step(cfg, s, NotifySend(pid)) == Restarted(s) <==> ClosedIn(s, s.pushes[pid].scan.hand.value)
  {
    assert pid !in Restarted(s).pushes;
    assert pid in SentOn(cfg, s, pid).pushes;
  }
}
