/**
  When the relay can still deliver: what a push can come to by the relay's own steps - of sessions,
  of committed pushes, of connects and disconnects under way - and that it gets there.
 */
module DeliveryReach {
  import opened Base
  import opened Inbox
  import opened Router
  import opened Delivery
  import opened DeliverySessions
  import opened DeliveryLists
  import opened DeliveryWake
  import opened DeliveryProgress
  import W = SessionWriter
  import N = Notifier
  import F = FanOut

  // ---------------------------------------------------------------- what a push can still come to

  /** The sessions of k that hold a slot and have yet to subscribe. */
  function Joining(sessions: map<nat, Session>, k: Key): set<nat> {
    set sid | sid in sessions && sessions[sid].key == k && sessions[sid].pc.Acquired?
  }

  /** Of these channels, those whose session has been cancelled. */
  function Leaving(sessions: map<nat, Session>, chs: seq<nat>): set<nat> {
    set ch | ch in chs && ch in sessions && sessions[ch].cancelled
  }

  /** The fan-out reads the array that its key's list is in now. */
  predicate Current(lists: N.Lists, p: Progress)
    requires p.Fanning?
  {
    p.row.recipient in lists.subs && lists.subs[p.row.recipient].arr == p.arr
  }

  /** Stale slots below this index can be overwritten by the subscriptions under way. */
  function Clearable(lists: N.Lists, sessions: map<nat, Session>, p: Progress): nat
    requires p.Fanning?
  {
    if Current(lists, p) then lists.subs[p.row.recipient].len + |Joining(sessions, p.row.recipient)| else 0
  }

  /** Unread slot j holds the channel, and every closed channel before it can be overwritten. */
  predicate ReachSlot(lists: N.Lists, sessions: map<nat, Session>, p: Progress, sid: nat, j: nat)
    requires p.Fanning?
  {
    var slots := SlotsAt(lists.heap, p.arr);
    && p.scan.cursor <= j < p.scan.limit && j < |slots| && slots[j] == sid
    && forall d :: p.scan.cursor <= d < j && ClosedAt(sessions, slots[d]) ==> d < Clearable(lists, sessions, p)
  }

  /** The channel is listed at q, behind the fan-out's slots, and enough sessions listed before it
      are leaving to shift it in. */
  predicate ReachShift(lists: N.Lists, sessions: map<nat, Session>, p: Progress, sid: nat, q: nat)
    requires p.Fanning?
  {
    var slots := SlotsAt(lists.heap, p.arr);
    && Current(lists, p) && p.scan.cursor < p.scan.limit <= q < lists.subs[p.row.recipient].len
    && q < |slots| && slots[q] == sid
    && q < p.scan.limit + |Leaving(sessions, slots[..q])|
  }

  /** The push can still come to send to the channel. */
  ghost predicate MaySend(lists: N.Lists, sessions: map<nat, Session>, p: Progress, sid: nat, k: Key) {
    || (p.Committed? && p.row.recipient == k)
    || (p.Fanning? && p.row.recipient == k
        && (p.scan.hand.Some? ==> !ClosedAt(sessions, p.scan.hand.value))
        && (p.scan.hand == Some(sid) || CanCome(lists, sessions, p, sid)))
  }

  ghost predicate CanCome(lists: N.Lists, sessions: map<nat, Session>, p: Progress, sid: nat)
    requires p.Fanning?
  {
    || (exists j: nat :: ReachSlot(lists, sessions, p, sid, j))
    || (exists q: nat :: ReachShift(lists, sessions, p, sid, q))
  }

  ghost predicate MaySignal(s: State, sid: nat)
    requires sid in s.sessions
  {
    exists p :: p in s.pushes && MaySend(s.lists, s.sessions, s.pushes[p], sid, s.sessions[sid].key)
  }

  /** The session is going to look at its Inbox, or can be made to. */
  ghost predicate WillLook(s: State, sid: nat)
    requires sid in s.sessions
  {
    var ss := s.sessions[sid];
    ss.pc.FirstPeek? || ss.pc.Woken? || ss.signal || MaySignal(s, sid)
  }

  lemma WillIsMay(lists: N.Lists, sessions: map<nat, Session>, p: Progress, sid: nat, k: Key)
    requires WillSend(lists.heap, sessions, p, sid, k)
    ensures MaySend(lists, sessions, p, sid, k)
  {
    if p.Fanning? && p.scan.hand != Some(sid) {
      var j: nat :| ClearTo(sessions, SlotsAt(lists.heap, p.arr), p.scan, sid, j);
      assert ReachSlot(lists, sessions, p, sid, j);
    }
  }

  // ---------------------------------------------------------------- making it come there

  /** The same session: only its signal and its record may differ. */
  predicate Same(ss: Session, ss': Session) {
    ss'.key == ss.key && ss'.pc == ss.pc && ss'.cancelled == ss.cancelled && ss'.out == ss.out
  }

  /** The state has moved on for others. */
  predicate Undisturbed(s: State, s': State, sid: nat)
    requires sid in s.sessions
  {
    s'.table == s.table && s'.pushes == s.pushes && sid in s'.sessions && Same(s.sessions[sid], s'.sessions[sid])
  }

  /** The table is as before, and the session has its signal. */
  predicate Told(s: State, s': State, sid: nat)
    requires sid in s.sessions
  {
    s'.table == s.table && sid in s'.sessions && Same(s.sessions[sid], s'.sessions[sid]) && s'.sessions[sid].signal
  }

  lemma ListedIsOpen(s: State, p: nat, d: nat)
    requires ListsOk(s) && p in s.pushes && s.pushes[p].Fanning? && Current(s.lists, s.pushes[p])
    requires d < s.lists.subs[s.pushes[p].row.recipient].len && d < |SlotsAt(s.lists.heap, s.pushes[p].arr)|
    ensures var ch := SlotsAt(s.lists.heap, s.pushes[p].arr)[d];
            && ch in N.Listed(s.lists, s.pushes[p].row.recipient)
            && ch in s.sessions && s.sessions[ch].stage.Listening? && s.sessions[ch].key == s.pushes[p].row.recipient
  {
    var k := s.pushes[p].row.recipient;
    assert N.Listed(s.lists, k)[d] == SlotsAt(s.lists.heap, s.pushes[p].arr)[d];
  }

  /** One subscription in place of a session that is joining. */
  lemma JoinStep(cfg: Config, s: State, pid: nat, sid: nat, a: nat)
    requires ListsOk(s) && sid in s.sessions && Live(s.sessions[sid]) && pid in s.pushes && s.pushes[pid].Fanning?
    requires var k := s.pushes[pid].row.recipient;
             Current(s.lists, s.pushes[pid]) && N.HasSpare(s.lists, k) && a in Joining(s.sessions, k)
    ensures var s', k := Step(cfg, s, Subscribe(a, true, 0)), s.pushes[pid].row.recipient;
            var slots, len := SlotsAt(s.lists.heap, s.pushes[pid].arr), s.lists.subs[k].len;
            && Undisturbed(s, s', sid) && Current(s'.lists, s.pushes[pid]) && s'.lists.subs[k].len == len + 1
            && len <= |slots| && SlotsAt(s'.lists.heap, s.pushes[pid].arr) == N.Put(slots, len, a)
            && Joining(s'.sessions, k) == Joining(s.sessions, k) - {a}
            && (forall ch :: ClosedAt(s'.sessions, ch) <==> ClosedAt(s.sessions, ch))
            && !ClosedAt(s'.sessions, a)
  {
    assert Placed(s.sessions[a]);
  }

  predicate OpenHand(s: State, pid: nat, sid: nat) {
    && sid in s.sessions && pid in s.pushes && s.pushes[pid].Fanning?
    && s.pushes[pid].row.recipient == s.sessions[sid].key
    && (s.pushes[pid].scan.hand.Some? ==> !ClosedAt(s.sessions, s.pushes[pid].scan.hand.value))
  }

  predicate MayReach(s: State, pid: nat, sid: nat, j: int) {
    OpenHand(s, pid, sid) && j >= 0 && ReachSlot(s.lists, s.sessions, s.pushes[pid], sid, j)
  }

  predicate MayShift(s: State, pid: nat, sid: nat, q: int) {
    OpenHand(s, pid, sid) && q >= 0 && ReachShift(s.lists, s.sessions, s.pushes[pid], sid, q)
  }

  /** The relay's own steps can give the session its signal. */
  ghost predicate CanTell(cfg: Config, s: State, sid: nat)
    requires sid in s.sessions
  {
    exists evs :: AllInternal(evs) && Told(s, Run(cfg, s, evs), sid)
  }

  lemma TellAfter(cfg: Config, s: State, ev: Event, sid: nat)
    requires sid in s.sessions && Internal(ev) && Undisturbed(s, Step(cfg, s, ev), sid)
    requires CanTell(cfg, Step(cfg, s, ev), sid)
    ensures CanTell(cfg, s, sid)
  {
    var rest :| AllInternal(rest) && Told(Step(cfg, s, ev), Run(cfg, Step(cfg, s, ev), rest), sid);
    RunOne(cfg, s, ev);
    RunConcat(cfg, s, [ev], rest);
    assert AllInternal([ev] + rest);
  }

  /** A state from which telling the session tells it here. */
  ghost predicate OnTheWay(cfg: Config, s: State, s': State, sid: nat) {
    && ListsOk(s') && sid in s.sessions && sid in s'.sessions && Live(s'.sessions[sid])
    && (CanTell(cfg, s', sid) ==> CanTell(cfg, s, sid))
  }

  lemma Onwards(cfg: Config, s: State, ev: Event, sid: nat)
    requires ListsOk(s) && sid in s.sessions && Live(s.sessions[sid])
    requires Internal(ev) && Undisturbed(s, Step(cfg, s, ev), sid)
    ensures OnTheWay(cfg, s, Step(cfg, s, ev), sid)
  {
    StepLists(cfg, s, ev);
    if CanTell(cfg, Step(cfg, s, ev), sid) { TellAfter(cfg, s, ev, sid); }
  }

  lemma JoinNext(cfg: Config, s: State, pid: nat, sid: nat, j: nat, d: nat) returns (s': State)
    requires ListsOk(s) && sid in s.sessions && Live(s.sessions[sid]) && MayReach(s, pid, sid, j)
    requires var p := s.pushes[pid];
             p.scan.cursor <= d < j && ClosedAt(s.sessions, SlotsAt(s.lists.heap, p.arr)[d])
    ensures OnTheWay(cfg, s, s', sid) && MayReach(s', pid, sid, j) && s'.sessions[sid].key == s.sessions[sid].key
    ensures |Joining(s'.sessions, s.sessions[sid].key)| < |Joining(s.sessions, s.sessions[sid].key)|
  {
    var p, k := s.pushes[pid], s.sessions[sid].key;
    if d < s.lists.subs[k].len { ListedIsOpen(s, pid, d); }
    var a :| a in Joining(s.sessions, k);
    var ev := Subscribe(a, true, 0);
    JoinStep(cfg, s, pid, sid, a);
    Onwards(cfg, s, ev, sid);
    s' := Step(cfg, s, ev);
  }

  lemma {:induction false} JoinsLead(cfg: Config, s: State, pid: nat, sid: nat, j: nat)
    requires ListsOk(s) && sid in s.sessions && Live(s.sessions[sid]) && MayReach(s, pid, sid, j)
    ensures CanTell(cfg, s, sid)
    decreases |Joining(s.sessions, s.sessions[sid].key)|
  {
    var p, slots := s.pushes[pid], SlotsAt(s.lists.heap, s.pushes[pid].arr);
    if d: nat :| p.scan.cursor <= d < j && ClosedAt(s.sessions, slots[d]) {
      var s' := JoinNext(cfg, s, pid, sid, j, d);
      JoinsLead(cfg, s', pid, sid, j);
    } else {
      assert ClearTo(s.sessions, slots, p.scan, sid, j);
      var evs := PushLeads(cfg, s, pid, sid);
    }
  }

  /** What a removal leaves of the sessions: only one's stage and the records differ. */
  lemma RemovalSessions(cfg: Config, s: State, o: nat)
    requires o in s.sessions && s.sessions[o].cancelled && s.sessions[o].stage.Listening?
    ensures var s' := Step(cfg, s, Unsubscribe(o));
            && s'.table == s.table && s'.pushes == s.pushes
            && s'.lists == N.Unsubscribed(s.lists, s.sessions[o].key, o)
            && (forall ch :: ch in s'.sessions <==> ch in s.sessions)
            && (forall ch :: ch in s.sessions && ch != o ==>
                  s'.sessions[ch].(behind := s.sessions[ch].behind) == s.sessions[ch])
            && s'.sessions[o].(behind := s.sessions[o].behind, stage := Listening) == s.sessions[o]
            && s'.sessions[o].stage.Removed?
  {
  }

  /** ... and of the array. */
  lemma RemovalArray(lists: N.Lists, k: Key, i: nat)
    requires k in lists.subs && N.Fits(lists.heap, lists.subs[k]) && i < lists.subs[k].len
    requires N.Distinct(N.Listed(lists, k))
    ensures var arr, len := lists.subs[k].arr, lists.subs[k].len;
            var lists' := N.Unsubscribed(lists, k, lists.heap[arr].slots[i]);
            && |lists'.heap| == |lists.heap|
            && lists'.heap[arr].slots == N.Shifted(lists.heap[arr].slots, len, i)
            && (forall a: nat :: a < |lists.heap| && a != arr ==> lists'.heap[a] == lists.heap[a])
            && (forall l :: l != k ==> (l in lists'.subs <==> l in lists.subs))
            && (forall l :: l != k && l in lists.subs ==> lists'.subs[l] == lists.subs[l])
            && (k in lists'.subs <==> len > 1)
            && (len > 1 ==> lists'.subs[k] == N.Slice(arr, len - 1))
  {
    ListedAt(lists, k, i);
  }

  /** Slot i holds the channel of a cancelled session of the push's key, listening still. */
  predicate LeaverAt(s: State, pid: nat, i: nat)
    requires pid in s.pushes && s.pushes[pid].Fanning?
  {
    var slots := SlotsAt(s.lists.heap, s.pushes[pid].arr);
    && i < |slots| && slots[i] in s.sessions && s.sessions[slots[i]].cancelled
    && s.sessions[slots[i]].stage.Listening? && s.sessions[slots[i]].key == s.pushes[pid].row.recipient
  }

  /** One removal of a cancelled session listed before sid. */
  lemma LeaveStep(cfg: Config, s: State, pid: nat, sid: nat, i: nat, q: nat)
    requires sid in s.sessions && pid in s.pushes && s.pushes[pid].Fanning?
    requires N.Sound(s.lists) && N.Distinct(N.Listed(s.lists, s.pushes[pid].row.recipient))
    requires ReachShift(s.lists, s.sessions, s.pushes[pid], sid, q) && i < q && !s.sessions[sid].cancelled
    requires LeaverAt(s, pid, i)
    ensures var k, slots := s.pushes[pid].row.recipient, SlotsAt(s.lists.heap, s.pushes[pid].arr);
            var s', len := Step(cfg, s, Unsubscribe(slots[i])), s.lists.subs[k].len;
            && Undisturbed(s, s', sid) && Current(s'.lists, s.pushes[pid]) && s'.lists.subs[k].len == len - 1
            && len <= |slots| && SlotsAt(s'.lists.heap, s.pushes[pid].arr) == N.Shifted(slots, len, i)
            && SameCancelled(s.sessions, s'.sessions)
            && (forall ch :: ClosedAt(s'.sessions, ch) <==> ClosedAt(s.sessions, ch))
  {
    var p, k := s.pushes[pid], s.pushes[pid].row.recipient;
    var o := SlotsAt(s.lists.heap, p.arr)[i];
    RemovalSessions(cfg, s, o);
    RemovalArray(s.lists, k, i);
  }

  ghost predicate SameCancelled(sessions: map<nat, Session>, sessions': map<nat, Session>) {
    forall ch :: ch in sessions' && sessions'[ch].cancelled <==> ch in sessions && sessions[ch].cancelled
  }

  lemma ListedAt(lists: N.Lists, k: Key, i: nat)
    requires k in lists.subs && N.Fits(lists.heap, lists.subs[k]) && i < lists.subs[k].len
    requires N.Distinct(N.Listed(lists, k))
    ensures var o := lists.heap[lists.subs[k].arr].slots[i];
            o in N.Listed(lists, k) && N.IndexOf(N.Listed(lists, k), o) == i
  {
    assert N.Listed(lists, k)[i] == lists.heap[lists.subs[k].arr].slots[i];
  }

  /** Of the sessions leaving before a channel one fewer is left, once one of them has left. */
  lemma FewerLeaving(sessions: map<nat, Session>, sessions': map<nat, Session>, slots: seq<nat>,
                     len: nat, i: nat, q: nat)
    requires i < q < len <= |slots| && N.Distinct(slots[..len]) && SameCancelled(sessions, sessions')
    requires slots[i] in sessions && sessions[slots[i]].cancelled
    ensures |Leaving(sessions', N.Shifted(slots, len, i)[..q - 1])| == |Leaving(sessions, slots[..q])| - 1
  {
    var before, after := slots[..q], N.Shifted(slots, len, i)[..q - 1];
    forall ch ensures ch in after <==> ch in before && ch != slots[i] {
      ShiftedPrefixHas(slots, len, i, q, ch);
    }
    assert before[i] == slots[i];
    assert Leaving(sessions', after) == Leaving(sessions, before) - {slots[i]};
  }

  lemma ShiftedPrefixHas(slots: seq<nat>, len: nat, i: nat, q: nat, ch: nat)
    requires i < q < len <= |slots| && N.Distinct(slots[..len])
    ensures ch in N.Shifted(slots, len, i)[..q - 1] <==> ch in slots[..q] && ch != slots[i]
  {
    var before, after := slots[..q], N.Shifted(slots, len, i)[..q - 1];
    if ch in after {
      var j :| 0 <= j < q - 1 && after[j] == ch;
      var from := if j < i then j else j + 1;
      assert before[from] == ch;
      F.ListedOnce(slots, len, from, i);
    }
    if ch in before && ch != slots[i] {
      var j :| 0 <= j < q && before[j] == ch;
      assert after[if j < i then j else j - 1] == ch;
    }
  }

  lemma SomeLeaving(sessions: map<nat, Session>, chs: seq<nat>) returns (i: nat)
    requires Leaving(sessions, chs) != {}
    ensures i < |chs| && chs[i] in sessions && sessions[chs[i]].cancelled
  {
    var ch :| ch in Leaving(sessions, chs);
    i :| i < |chs| && chs[i] == ch;
  }

  /** The channel has come one slot closer, and one session fewer is leaving. */
  lemma NearerShift(s: State, s': State, pid: nat, sid: nat, i: nat, q: nat)
    requires pid in s.pushes && s.pushes[pid].Fanning? && N.Distinct(N.Listed(s.lists, s.pushes[pid].row.recipient))
    requires ReachShift(s.lists, s.sessions, s.pushes[pid], sid, q) && SameCancelled(s.sessions, s'.sessions)
    requires var p, slots := s.pushes[pid], SlotsAt(s.lists.heap, s.pushes[pid].arr);
             var k, len := p.row.recipient, s.lists.subs[p.row.recipient].len;
             && i < q && slots[i] in s.sessions && s.sessions[slots[i]].cancelled && len <= |slots|
             && Current(s'.lists, p) && s'.lists.subs[k].len == len - 1
             && SlotsAt(s'.lists.heap, p.arr) == N.Shifted(slots, len, i)
    requires q > s.pushes[pid].scan.limit
    ensures ReachShift(s'.lists, s'.sessions, s.pushes[pid], sid, q - 1)
  {
    var p, slots := s.pushes[pid], SlotsAt(s.lists.heap, s.pushes[pid].arr);
    var len := s.lists.subs[p.row.recipient].len;
    assert slots[..len] == N.Listed(s.lists, p.row.recipient);
    FewerLeaving(s.sessions, s'.sessions, slots, len, i, q);
    assert N.Shifted(slots, len, i)[q - 1] == sid;
  }

  /** Every channel of the list the fan-out reads is open. */
  predicate ListOpen(s: State, p: Progress)
    requires p.Fanning? && Current(s.lists, p)
  {
    var slots := SlotsAt(s.lists.heap, p.arr);
    forall d: nat :: d < s.lists.subs[p.row.recipient].len && d < |slots| ==> !ClosedAt(s.sessions, slots[d])
  }

  lemma ListedFacts(s: State, pid: nat)
    requires ListsOk(s) && pid in s.pushes && s.pushes[pid].Fanning? && Current(s.lists, s.pushes[pid])
    ensures N.Sound(s.lists) && N.Distinct(N.Listed(s.lists, s.pushes[pid].row.recipient))
    ensures ListOpen(s, s.pushes[pid])
  {
    var slots := SlotsAt(s.lists.heap, s.pushes[pid].arr);
    forall d: nat | d < s.lists.subs[s.pushes[pid].row.recipient].len && d < |slots|
      ensures !ClosedAt(s.sessions, slots[d])
    {
      ListedIsOpen(s, pid, d);
    }
  }

  /** Shifted into the fan-out's last slot, the channel has only open ones before it. */
  lemma InViewNow(s: State, s': State, p: Progress, sid: nat, i: nat, q: nat)
    requires p.Fanning? && ReachShift(s.lists, s.sessions, p, sid, q) && q == p.scan.limit && ListOpen(s, p)
    requires var slots, len := SlotsAt(s.lists.heap, p.arr), s.lists.subs[p.row.recipient].len;
             i < q && len <= |slots| && SlotsAt(s'.lists.heap, p.arr) == N.Shifted(slots, len, i)
    requires forall ch :: ClosedAt(s'.sessions, ch) <==> ClosedAt(s.sessions, ch)
    ensures ReachSlot(s'.lists, s'.sessions, p, sid, q - 1)
  {
    var slots, after := SlotsAt(s.lists.heap, p.arr), SlotsAt(s'.lists.heap, p.arr);
    forall d: nat | d < q ensures !ClosedAt(s'.sessions, after[d]) {
      assert after[d] == slots[if d < i then d else d + 1];
    }
  }

  lemma SomeLeaver(s: State, pid: nat, sid: nat, q: nat) returns (i: nat)
    requires ListsOk(s) && MayShift(s, pid, sid, q)
    ensures i < q && LeaverAt(s, pid, i)
  {
    i := SomeLeaving(s.sessions, SlotsAt(s.lists.heap, s.pushes[pid].arr)[..q]);
    ListedIsOpen(s, pid, i);
  }

  /** A removal that brings sid one slot closer. */
  lemma ShiftOnce(cfg: Config, s: State, pid: nat, sid: nat, i: nat, q: nat)
    requires N.Sound(s.lists) && MayShift(s, pid, sid, q) && N.Distinct(N.Listed(s.lists, s.pushes[pid].row.recipient))
    requires i < q && LeaverAt(s, pid, i) && !s.sessions[sid].cancelled && ListOpen(s, s.pushes[pid])
    ensures var p := s.pushes[pid];
            var s' := Step(cfg, s, Unsubscribe(SlotsAt(s.lists.heap, p.arr)[i]));
            && Undisturbed(s, s', sid)
            && if q == p.scan.limit then MayReach(s', pid, sid, q - 1) else MayShift(s', pid, sid, q - 1)
  {
    var ev := Unsubscribe(SlotsAt(s.lists.heap, s.pushes[pid].arr)[i]);
    LeaveStep(cfg, s, pid, sid, i, q);
    if q == s.pushes[pid].scan.limit {
      InViewNow(s, Step(cfg, s, ev), s.pushes[pid], sid, i, q);
    } else {
      NearerShift(s, Step(cfg, s, ev), pid, sid, i, q);
    }
  }

  lemma ShiftNext(cfg: Config, s: State, pid: nat, sid: nat, q: nat) returns (s': State)
    requires ListsOk(s) && sid in s.sessions && Live(s.sessions[sid]) && MayShift(s, pid, sid, q)
    ensures OnTheWay(cfg, s, s', sid)
    ensures if q == s.pushes[pid].scan.limit then MayReach(s', pid, sid, q - 1) else MayShift(s', pid, sid, q - 1)
  {
    var i := SomeLeaver(s, pid, sid, q);
    var ev := Unsubscribe(SlotsAt(s.lists.heap, s.pushes[pid].arr)[i]);
    ListedFacts(s, pid);
    ShiftOnce(cfg, s, pid, sid, i, q);
    Onwards(cfg, s, ev, sid);
    s' := Step(cfg, s, ev);
  }

  lemma {:induction false} ShiftsLead(cfg: Config, s: State, pid: nat, sid: nat, q: nat)
    requires ListsOk(s) && sid in s.sessions && Live(s.sessions[sid]) && MayShift(s, pid, sid, q)
    ensures CanTell(cfg, s, sid)
    decreases q
  {
    var s' := ShiftNext(cfg, s, pid, sid, q);
    if q == s.pushes[pid].scan.limit {
      JoinsLead(cfg, s', pid, sid, q - 1);
    } else {
      ShiftsLead(cfg, s', pid, sid, q - 1);
    }
  }

  /** Whatever may still be sent can be: the session gets its signal. */
  lemma MayLeads(cfg: Config, s: State, sid: nat)
    requires ListsOk(s) && sid in s.sessions && Live(s.sessions[sid]) && MaySignal(s, sid)
    ensures CanTell(cfg, s, sid)
  {
    var k := s.sessions[sid].key;
    var pid :| pid in s.pushes && MaySend(s.lists, s.sessions, s.pushes[pid], sid, k);
    var p := s.pushes[pid];
    if p.Committed? || p.scan.hand == Some(sid) {
      var evs := PushLeads(cfg, s, pid, sid);
    } else if j: nat :| ReachSlot(s.lists, s.sessions, p, sid, j) {
      JoinsLead(cfg, s, pid, sid, j);
    } else {
      var q: nat :| ReachShift(s.lists, s.sessions, p, sid, q);
      ShiftsLead(cfg, s, pid, sid, q);
    }
  }

  // ---------------------------------------------------------------- when a row can be delivered

  /** After these events the Device has decoded the row's blob. */
  predicate Delivers(cfg: Config, s: State, evs: seq<Event>, sid: nat, r: Row) {
    var s' := Run(cfg, s, evs);
    sid in s'.sessions && r.ToBlob() in W.DeviceBlobs(cfg.cipher, s'.sessions[sid].out.stream)
  }

  lemma OwnSteps(sid: nat, es: seq<LocalEvent>)
    requires AllOwn(es)
    ensures AllInternal(Lift(sid, es))
  {
    var evs := Lift(sid, es);
    forall ev | ev in evs ensures Internal(ev) {
      var i :| 0 <= i < |evs| && evs[i] == ev;
      assert es[i] in es;
    }
  }

  lemma DeliverNow(cfg: Config, s: State, sid: nat, r: Row) returns (evs: seq<Event>)
    requires cfg.Ok() && Inv(cfg, s) && sid in s.sessions && r in s.table.rows && r.recipient == s.sessions[sid].key
    requires var ss := s.sessions[sid];
             Live(ss) && WriterUp(ss) && (ss.pc.FirstPeek? || ss.pc.Woken? || ss.signal || r.id <= Bound(ss))
    ensures AllInternal(evs) && Delivers(cfg, s, evs, sid, r)
  {
    var es := LookAndDeliver(cfg, s.table, s.accepted, s.sessions[sid], r);
    LiftRuns(cfg, s, sid, es);
    OwnSteps(sid, es);
    evs := Lift(sid, es);
  }

  /** A live session that will look, or has looked far enough, gets the row. */
  lemma StillDeliverable(cfg: Config, s: State, sid: nat, r: Row) returns (evs: seq<Event>)
    requires cfg.Ok() && Inv(cfg, s) && sid in s.sessions && r in s.table.rows && r.recipient == s.sessions[sid].key
    requires Live(s.sessions[sid]) && WriterUp(s.sessions[sid])
    requires WillLook(s, sid) || r.id <= Bound(s.sessions[sid])
    ensures AllInternal(evs) && Delivers(cfg, s, evs, sid, r)
  {
    var ss := s.sessions[sid];
    if ss.pc.FirstPeek? || ss.pc.Woken? || ss.signal || r.id <= Bound(ss) {
      evs := DeliverNow(cfg, s, sid, r);
    } else {
      MayLeads(cfg, s, sid);
      var first :| AllInternal(first) && Told(s, Run(cfg, s, first), sid);
      RunInv(cfg, s, first);
      var rest := DeliverNow(cfg, Run(cfg, s, first), sid, r);
      RunConcat(cfg, s, first, rest);
      evs := first + rest;
    }
  }
}
