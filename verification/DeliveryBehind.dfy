/** How a wake-up is lost: the steps that lose one, told from the slots of the arrays being read. */
module DeliveryBehind {
  import opened Base
  import opened Router
  import opened Delivery
  import opened DeliveryInvariants
  import opened DeliveryLists
  import opened DeliveryTheorems
  import opened DeliveryReach
  import opened DeliveryStuck
  import N = Notifier
  import F = FanOut

  // ---------------------------------------------------------------- the condition

  predicate FansOut(s: State, p: nat, k: Key) {
    p in s.pushes && s.pushes[p].Fanning? && s.pushes[p].row.recipient == k
  }

  /** The fan-out holds the channel or has it in an unread slot. */
  predicate Before(heap: seq<N.Array>, p: Progress, sid: nat)
    requires p.Fanning?
  {
    F.Ahead(SlotsAt(heap, p.arr), p.scan, sid)
  }

  ghost predicate NoneCommitted(s: State, k: Key) {
    forall p :: p in s.pushes && s.pushes[p].Committed? ==> s.pushes[p].row.recipient != k
  }

  /** Only fan-outs still owe the session a signal, and one does. */
  ghost predicate OwedByFanOuts(s: State, sid: nat)
    requires sid in s.sessions
  {
    && NoneCommitted(s, s.sessions[sid].key)
    && exists p :: FansOut(s, p, s.sessions[sid].key) && Before(s.lists.heap, s.pushes[p], sid)
  }

  /** o is at index i of its key's list, and the removal's shift leaves the fan-out without sid:
      it had sid in one slot only, which the shift overwrites, or it had not and gets none. */
  predicate ShiftLeaves(s: State, l: Key, i: nat, p: Progress, sid: nat)
    requires p.Fanning? && l in s.lists.subs
  {
    var slots, len := SlotsAt(s.lists.heap, p.arr), s.lists.subs[l].len;
    if Before(s.lists.heap, p, sid) then ReadsList(s.lists, l, p) && F.ShiftTakes(slots, len, i, p.scan, sid)
    else ReadsList(s.lists, l, p) ==> !F.ShiftBrings(slots, len, i, p.scan, sid)
  }

  /** A subscription in place leaves the fan-out without sid: it had sid only in the slot behind
      the list, or nowhere. */
  predicate AppendLeaves(s: State, l: Key, p: Progress, sid: nat)
    requires p.Fanning? && l in s.lists.subs
  {
    Before(s.lists.heap, p, sid) ==>
      && ReadsList(s.lists, l, p) && p.scan.hand != Some(sid)
      && F.OnlyUnread(SlotsAt(s.lists.heap, p.arr), p.scan, s.lists.subs[l].len, sid)
  }

  ghost predicate RemovalLoses(s: State, o: nat, sid: nat)
    requires sid in s.sessions
  {
    && o in s.sessions && s.sessions[o].cancelled && s.sessions[o].stage.Listening?
    && s.sessions[o].key == s.sessions[sid].key && OwedByFanOuts(s, sid)
    && var k := s.sessions[sid].key;
    && k in s.lists.subs && o in N.Listed(s.lists, k)
    && forall p :: FansOut(s, p, k) ==> ShiftLeaves(s, k, N.IndexOf(N.Listed(s.lists, k), o), s.pushes[p], sid)
  }

  ghost predicate AppendLoses(s: State, o: nat, sid: nat)
    requires sid in s.sessions
  {
    && o in s.sessions && s.sessions[o].pc.Acquired?
    && s.sessions[o].key == s.sessions[sid].key && OwedByFanOuts(s, sid)
    && N.HasSpare(s.lists, s.sessions[sid].key)
    && forall p :: FansOut(s, p, s.sessions[sid].key) ==> AppendLeaves(s, s.sessions[sid].key, s.pushes[p], sid)
  }

  /** The step spends the session's signal on a peek that fails; or a removal shifts, or a
      subscription overwrites, the session's channel out of every fan-out that had it still to
      come. */
  ghost predicate LosesWakeUp(s: State, ev: Event, sid: nat)
    requires sid in s.sessions
  {
    match ev
    case At(o, e) => o == sid && e == Peek(false) && (s.sessions[sid].pc.FirstPeek? || s.sessions[sid].pc.Woken?)
    case Unsubscribe(o) => RemovalLoses(s, o, sid)
    case Subscribe(o, ok, _) => ok && AppendLoses(s, o, sid)
    case _ => false
  }

  // ---------------------------------------------------------------- what is overtaken

  lemma PendingIs(s: State, heap: seq<N.Array>, sid: nat, k: Key)
    ensures Pending(heap, s.pushes, sid, k)
            <==> !NoneCommitted(s, k) || exists p :: FansOut(s, p, k) && Before(heap, s.pushes[p], sid)
  {
    if p :| FansOut(s, p, k) && Before(heap, s.pushes[p], sid) {
      assert PendsFor(heap, s.pushes[p], sid, k);
    }
    if !NoneCommitted(s, k) {
      var p :| p in s.pushes && s.pushes[p].Committed? && s.pushes[p].row.recipient == k;
      assert PendsFor(heap, s.pushes[p], sid, k);
    }
    if Pending(heap, s.pushes, sid, k) {
      var p :| p in s.pushes && PendsFor(heap, s.pushes[p], sid, k);
      assert s.pushes[p].Fanning? ==> FansOut(s, p, k) && Before(heap, s.pushes[p], sid);
    }
  }

  lemma OvertakenIs(s: State, heap: seq<N.Array>, sid: nat)
    requires sid in s.sessions
    ensures Overtaken(s, heap, sid)
            <==> OwedByFanOuts(s, sid)
                 && forall p :: FansOut(s, p, s.sessions[sid].key) ==> !Before(heap, s.pushes[p], sid)
  {
    PendingIs(s, s.lists.heap, sid, s.sessions[sid].key);
    PendingIs(s, heap, sid, s.sessions[sid].key);
  }

  /** The fan-out reads the same, or nothing. */
  predicate ReadsOn(heap: seq<N.Array>, heap': seq<N.Array>, p: Progress) {
    p.Fanning? && p.scan.limit > 0 ==> SlotsAt(heap', p.arr) == SlotsAt(heap, p.arr)
  }

  lemma BeforeSame(heap: seq<N.Array>, heap': seq<N.Array>, p: Progress, sid: nat)
    requires p.Fanning? && ReadsOn(heap, heap', p)
    ensures Before(heap', p, sid) <==> Before(heap, p, sid)
  {
  }

  lemma ScanFits(s: State, p: nat, l: Key)
    requires ListsOk(s) && p in s.pushes && s.pushes[p].Fanning? && ReadsList(s.lists, l, s.pushes[p])
    ensures s.pushes[p].scan.limit <= |SlotsAt(s.lists.heap, s.pushes[p].arr)|
    ensures l in s.lists.subs && s.lists.subs[l].len <= |SlotsAt(s.lists.heap, s.pushes[p].arr)|
  {
    assert ScanOk(s.lists.heap, s.sessions, s.pushes[p]);
  }

  // ---------------------------------------------------------------- a removal

  lemma RemovalBefore(s: State, l: Key, i: nat, p: nat, sid: nat)
    requires ListsOk(s) && FansOut(s, p, l) && l in s.lists.subs && i < s.lists.subs[l].len
    ensures var o := s.lists.heap[s.lists.subs[l].arr].slots[i];
            !Before(N.Unsubscribed(s.lists, l, o).heap, s.pushes[p], sid) <==> ShiftLeaves(s, l, i, s.pushes[p], sid)
  {
    var q, len := s.pushes[p], s.lists.subs[l].len;
    var o := s.lists.heap[s.lists.subs[l].arr].slots[i];
    OwnArrays(s, p);
    RemovalArray(s.lists, l, i);
    if ReadsList(s.lists, l, q) {
      ScanFits(s, p, l);
      var slots := SlotsAt(s.lists.heap, q.arr);
      assert slots[..len] == N.Listed(s.lists, l);
      F.RemovalSkipsExactly(slots, len, i, q.scan, sid);
    } else {
      BeforeSame(s.lists.heap, N.Unsubscribed(s.lists, l, o).heap, q, sid);
    }
  }

  /** A removal from another key's list changes nothing for the fan-out. */
  lemma OtherRemoval(s: State, l: Key, i: nat, p: nat, k: Key, sid: nat)
    requires ListsOk(s) && FansOut(s, p, k) && l != k && l in s.lists.subs && i < s.lists.subs[l].len
    ensures var o := s.lists.heap[s.lists.subs[l].arr].slots[i];
            Before(N.Unsubscribed(s.lists, l, o).heap, s.pushes[p], sid) <==> Before(s.lists.heap, s.pushes[p], sid)
  {
    OwnArrays(s, p);
    OtherReads(s.lists, l, i, s.pushes[p]);
    var o := s.lists.heap[s.lists.subs[l].arr].slots[i];
    BeforeSame(s.lists.heap, N.Unsubscribed(s.lists, l, o).heap, s.pushes[p], sid);
  }

  lemma OtherReads(lists: N.Lists, l: Key, i: nat, p: Progress)
    requires N.Sound(lists) && OwnArray(lists, p) && p.Fanning? && p.row.recipient != l
    requires l in lists.subs && i < lists.subs[l].len && N.Distinct(N.Listed(lists, l))
    ensures ReadsOn(lists.heap, N.Unsubscribed(lists, l, lists.heap[lists.subs[l].arr].slots[i]).heap, p)
  {
    RemovalArray(lists, l, i);
    assert N.Owns(lists.heap, lists.subs[l], l);
  }

  lemma RemovalOvertakes(s: State, o: nat, sid: nat)
    requires ListsOk(s) && sid in s.sessions && o in s.sessions
    requires s.sessions[o].cancelled && s.sessions[o].stage.Listening?
    ensures Overtaken(s, N.Unsubscribed(s.lists, s.sessions[o].key, o).heap, sid) <==> RemovalLoses(s, o, sid)
  {
    var k, l := s.sessions[sid].key, s.sessions[o].key;
    var lists' := N.Unsubscribed(s.lists, l, o);
    var i := ListPlace(s, o);
    ListedAt(s.lists, l, i);
    OvertakenIs(s, lists'.heap, sid);
    forall p | FansOut(s, p, k)
      ensures if k == l then !Before(lists'.heap, s.pushes[p], sid) <==> ShiftLeaves(s, l, i, s.pushes[p], sid)
              else Before(lists'.heap, s.pushes[p], sid) <==> Before(s.lists.heap, s.pushes[p], sid)
    {
      if k == l { RemovalBefore(s, l, i, p, sid); } else { OtherRemoval(s, l, i, p, k, sid); }
    }
  }

  // ---------------------------------------------------------------- a subscription

  lemma AppendBefore(s: State, l: Key, o: nat, spare: nat, p: nat, k: Key, sid: nat)
    requires ListsOk(s) && FansOut(s, p, k) && o != sid
    ensures !Before(N.Subscribed(s.lists, l, o, spare).heap, s.pushes[p], sid)
            <==> if k == l && N.HasSpare(s.lists, l) then AppendLeaves(s, l, s.pushes[p], sid)
                 else !Before(s.lists.heap, s.pushes[p], sid)
  {
    var q := s.pushes[p];
    OwnArrays(s, p);
    if k == l && N.HasSpare(s.lists, l) && ReadsList(s.lists, l, q) {
      ScanFits(s, p, l);
      F.AppendSkipsExactly(SlotsAt(s.lists.heap, q.arr), s.lists.subs[l].len, q.scan, sid, o);
    } else {
      BeforeSame(s.lists.heap, N.Subscribed(s.lists, l, o, spare).heap, q, sid);
    }
  }

  /** A session that has not subscribed is before no fan-out. */
  lemma NotYetBefore(s: State, p: nat, sid: nat)
    requires ListsOk(s) && sid in s.sessions && s.sessions[sid].pc.Acquired? && FansOut(s, p, s.sessions[sid].key)
    ensures !Before(s.lists.heap, s.pushes[p], sid)
  {
    assert Placed(s.sessions[sid]);
    assert ScanOk(s.lists.heap, s.sessions, s.pushes[p]);
    if Before(s.lists.heap, s.pushes[p], sid) {
      AheadIsOwn(s, p, sid);
    }
  }

  /** A fan-out has only channels of its own key's sessions before it. */
  lemma AheadIsOwn(s: State, p: nat, ch: nat)
    requires ListsOk(s) && p in s.pushes && s.pushes[p].Fanning?
    requires F.Ahead(SlotsAt(s.lists.heap, s.pushes[p].arr), s.pushes[p].scan, ch)
    ensures ChanOk(s.sessions, s.pushes[p].row.recipient, ch)
  {
    var q := s.pushes[p];
    var slots := SlotsAt(s.lists.heap, q.arr);
    assert ScanOk(s.lists.heap, s.sessions, q);
    if q.scan.hand != Some(ch) {
      var j: nat :| q.scan.cursor <= j < q.scan.limit && j < |slots| && slots[j] == ch;
      assert ChanOk(s.sessions, s.lists.heap[q.arr].owner, s.lists.heap[q.arr].slots[j]);
    }
  }

  lemma AppendOvertakes(s: State, o: nat, spare: nat, sid: nat)
    requires ListsOk(s) && sid in s.sessions && o in s.sessions && s.sessions[o].pc.Acquired?
    ensures Overtaken(s, N.Subscribed(s.lists, s.sessions[o].key, o, spare).heap, sid) <==> AppendLoses(s, o, sid)
  {
    var k, l := s.sessions[sid].key, s.sessions[o].key;
    var lists' := N.Subscribed(s.lists, l, o, spare);
    OvertakenIs(s, lists'.heap, sid);
    forall p | FansOut(s, p, k)
      ensures if o == sid then !Before(s.lists.heap, s.pushes[p], sid)
              else !Before(lists'.heap, s.pushes[p], sid)
                   <==> if k == l && N.HasSpare(s.lists, l) then AppendLeaves(s, l, s.pushes[p], sid)
                        else !Before(s.lists.heap, s.pushes[p], sid)
    {
      if o == sid { NotYetBefore(s, p, sid); } else { AppendBefore(s, l, o, spare, p, k, sid); }
    }
  }

  // ---------------------------------------------------------------- every step

  /** The session is in both states, with the same record. */
  predicate SameRecord(s: State, s': State, sid: nat) {
    sid in s.sessions && sid in s'.sessions ==> s'.sessions[sid].behind == s.sessions[sid].behind
  }

  lemma AtBehind(cfg: Config, s: State, o: nat, e: LocalEvent, sid: nat)
    requires sid in s.sessions && !s.sessions[sid].behind
    ensures AtStep(cfg, s, o, e).sessions[sid].behind
            <==> o == sid && e == Peek(false) && (s.sessions[sid].pc.FirstPeek? || s.sessions[sid].pc.Woken?)
  {
  }

  lemma SubscribeBehind(cfg: Config, s: State, o: nat, ok: bool, spare: nat, sid: nat)
    requires ListsOk(s) && sid in s.sessions && !s.sessions[sid].behind
    ensures SubscribeStep(cfg, s, o, ok, spare).sessions[sid].behind <==> ok && AppendLoses(s, o, sid)
  {
    if ok && o in s.sessions && s.sessions[o].pc.Acquired? {
      AppendOvertakes(s, o, spare, sid);
    }
  }

  lemma UnsubscribeBehind(s: State, o: nat, sid: nat)
    requires ListsOk(s) && sid in s.sessions && !s.sessions[sid].behind
    ensures UnsubscribeStep(s, o).sessions[sid].behind <==> RemovalLoses(s, o, sid)
  {
    if o in s.sessions && s.sessions[o].cancelled && s.sessions[o].stage.Listening? {
      RemovalOvertakes(s, o, sid);
    }
  }

  lemma InboundRecord(cfg: Config, s: State, o: nat, plain: Bytes, fault: bool, sid: nat)
    ensures SameRecord(s, InboundStep(cfg, s, o, plain, fault), sid)
  {
    InboundShape(cfg, s, o, plain, fault);
  }

  lemma SendRecord(cfg: Config, s: State, pid: nat, sid: nat)
    ensures SameRecord(s, SendStep(cfg, s, pid), sid)
  {
  }

  /** A wake-up goes on record as lost in exactly these steps. */
  lemma BehindExactly(cfg: Config, s: State, ev: Event, sid: nat)
    requires ListsOk(s) && sid in s.sessions && !s.sessions[sid].behind && sid in Step(cfg, s, ev).sessions
    ensures Step(cfg, s, ev).sessions[sid].behind <==> LosesWakeUp(s, ev, sid)
  {
    match ev
    case At(o, e) => AtBehind(cfg, s, o, e, sid);
    case Subscribe(o, ok, spare) => SubscribeBehind(cfg, s, o, ok, spare, sid);
    case Unsubscribe(o) => UnsubscribeBehind(s, o, sid);
    case Inbound(o, plain, fault) => InboundRecord(cfg, s, o, plain, fault, sid);
    case PushFrame(p, plain, clock, wall, fault) => PushKeepsSessions(cfg, s, p, plain, clock, wall, fault);
    case NotifySend(p) => SendRecord(cfg, s, p, sid);
    case _ =>
  }
}
