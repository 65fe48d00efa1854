/**
  When the relay cannot deliver any more: nothing that happens without a new connection, a further
  push or a context that ends gives a push a way to a session that had none.
 */
module DeliveryStuck {
  import opened Base
  import opened Inbox
  import opened Router
  import opened Delivery
  import opened DeliverySessions
  import opened DeliveryInvariants
  import opened DeliveryLists
  import opened DeliveryWake
  import opened DeliveryTheorems
  import opened DeliveryProgress
  import opened DeliveryReach
  import W = SessionWriter
  import N = Notifier

  // ---------------------------------------------------------------- when nothing will do

  /** Nothing inside the relay will make the session look past the row's id. */
  ghost predicate Stuck(s: State, sid: nat, id: int) {
    sid in s.sessions ==>
      Live(s.sessions[sid]) && !WillLook(s, sid) && Bound(s.sessions[sid]) < id
  }

  /** Sessions among which no fewer channels are closed and none more joins or leaves. */
  ghost predicate NoHelp(sessions: map<nat, Session>, sessions': map<nat, Session>, k: Key) {
    && (forall ch :: ClosedAt(sessions, ch) ==> ClosedAt(sessions', ch))
    && Joining(sessions', k) <= Joining(sessions, k)
    && (forall ch :: ch in sessions' && sessions'[ch].cancelled ==> ch in sessions && sessions[ch].cancelled)
  }

  lemma SubsetSize(a: set<nat>, b: set<nat>)
    requires a <= b
    ensures |a| <= |b|
  {
    if a != {} {
      var x :| x in a;
      SubsetSize(a - {x}, b - {x});
    }
  }

  /** The fan-out reads the same, and its key's list is no longer. */
  predicate Unhelped(lists: N.Lists, lists': N.Lists, p: Progress) {
    p.Fanning? && p.scan.limit > 0 ==>
      && SlotsAt(lists'.heap, p.arr) == SlotsAt(lists.heap, p.arr)
      && (Current(lists', p) ==>
            Current(lists, p) && lists'.subs[p.row.recipient].len <= lists.subs[p.row.recipient].len)
  }

  lemma UnhelpedMay(lists: N.Lists, lists': N.Lists, a: map<nat, Session>, b: map<nat, Session>, p: Progress,
                    sid: nat, k: Key)
    requires Unhelped(lists, lists', p) && NoHelp(a, b, k) && MaySend(lists', b, p, sid, k)
    ensures MaySend(lists, a, p, sid, k)
  {
    SubsetSize(Joining(b, k), Joining(a, k));
    if p.Fanning? && p.scan.hand != Some(sid) {
      if j: nat :| ReachSlot(lists', b, p, sid, j) {
        assert ReachSlot(lists, a, p, sid, j);
      } else {
        var q: nat :| ReachShift(lists', b, p, sid, q);
        var chs := SlotsAt(lists.heap, p.arr)[..q];
        SubsetSize(Leaving(b, chs), Leaving(a, chs));
        assert ReachShift(lists, a, p, sid, q);
      }
    }
  }

  /** Sessions change, to the help of nobody. */
  lemma SessionsNoMore(s: State, s': State, sid: nat)
    requires s'.lists == s.lists && s'.pushes == s.pushes && sid in s.sessions && sid in s'.sessions
    requires s'.sessions[sid].key == s.sessions[sid].key && NoHelp(s.sessions, s'.sessions, s.sessions[sid].key)
    ensures MaySignal(s', sid) ==> MaySignal(s, sid)
  {
    if MaySignal(s', sid) {
      var k := s.sessions[sid].key;
      var p :| p in s'.pushes && MaySend(s'.lists, s'.sessions, s'.pushes[p], sid, k);
      UnhelpedMay(s.lists, s.lists, s.sessions, s'.sessions, s.pushes[p], sid, k);
    }
  }

  // ---------------------------------------------------------------- the sessions' own steps

  /** Live, with no peek to come and no signal. */
  predicate Asleep(ss: Session) {
    Live(ss) && !ss.pc.FirstPeek? && !ss.pc.Woken? && !ss.signal
  }

  lemma SleepsOn(c: W.Cipher, t: Table, ss: Session, e: LocalEvent)
    requires e != Signal && e != Cancel && Asleep(ss)
    ensures Asleep(Local(c, t, ss, e)) && Known(Local(c, t, ss, e)) == Known(ss)
  {
    if e == SendOne && ss.pc.Sending? && ss.pc.batch != [] {
      SendKnown(ss);
    }
  }

  /** A session's own steps move nobody into or out of a list. */
  lemma OwnStays(c: W.Cipher, t: Table, ss: Session, e: LocalEvent)
    requires e != Cancel
    ensures var ss' := Local(c, t, ss, e);
            && ss'.key == ss.key && ss'.stage == ss.stage && ss'.cancelled == ss.cancelled
            && (ss'.pc.Acquired? <==> ss.pc.Acquired?)
  {
  }

  lemma OneNoHelp(sessions: map<nat, Session>, o: nat, ss: Session, k: Key)
    requires o in sessions && ss.key == sessions[o].key && (ss.cancelled ==> sessions[o].cancelled)
    requires (sessions[o].stage.Closed? ==> ss.stage.Closed?) && (ss.pc.Acquired? ==> sessions[o].pc.Acquired?)
    ensures NoHelp(sessions, sessions[o := ss], k)
  {
  }

  lemma AtStuck(cfg: Config, s: State, o: nat, e: LocalEvent, sid: nat, id: int)
    requires e != Signal && e != Cancel && Stuck(s, sid, id)
    ensures Stuck(AtStep(cfg, s, o, e), sid, id)
  {
    if o in s.sessions && sid in s.sessions {
      var ss := Local(cfg.cipher, s.table, s.sessions[o], e);
      OwnStays(cfg.cipher, s.table, s.sessions[o], e);
      if o == sid { SleepsOn(cfg.cipher, s.table, s.sessions[sid], e); }
      OneStuck(s, AtStep(cfg, s, o, e), o, sid, id);
    }
  }

  /** One session changes, and neither subscribes nor leaves its list. */
  lemma OneStuck(s: State, s': State, o: nat, sid: nat, id: int)
    requires Stuck(s, sid, id) && o in s.sessions && o in s'.sessions
    requires s'.sessions == s.sessions[o := s'.sessions[o]] && s'.lists == s.lists && s'.pushes == s.pushes
    requires var ss, ss' := s.sessions[o], s'.sessions[o];
             && ss'.key == ss.key && ss'.cancelled == ss.cancelled && (ss.stage.Closed? ==> ss'.stage.Closed?)
             && (ss'.pc.Acquired? ==> ss.pc.Acquired?)
    requires o == sid ==> Known(s'.sessions[sid]) == Known(s.sessions[sid]) && Asleep(s'.sessions[sid])
    ensures Stuck(s', sid, id)
  {
    if sid in s.sessions {
      OneNoHelp(s.sessions, o, s'.sessions[o], s.sessions[sid].key);
      SessionsNoMore(s, s', sid);
    }
  }

  lemma CloseStuck(s: State, o: nat, sid: nat, id: int)
    requires Stuck(s, sid, id)
    ensures Stuck(CloseStep(s, o), sid, id)
  {
    if CloseStep(s, o) != s {
      assert Known(CloseStep(s, o).sessions[o]) == Known(s.sessions[o]);
      OneStuck(s, CloseStep(s, o), o, sid, id);
    }
  }

  lemma TeardownStuck(cfg: Config, s: State, o: nat, sid: nat, id: int)
    requires Stuck(s, sid, id)
    ensures Stuck(TeardownStep(cfg, s, o), sid, id)
  {
    if TeardownStep(cfg, s, o) != s {
      OneStuck(s, TeardownStep(cfg, s, o), o, sid, id);
    }
  }

  // ---------------------------------------------------------------- the pushes' steps

  /** A push moves, to progress that will not come to the session either. */
  lemma ProgressStuck(s: State, pid: nat, p: Progress, sid: nat, id: int)
    requires Stuck(s, sid, id)
    requires sid in s.sessions ==> !MaySend(s.lists, s.sessions, p, sid, s.sessions[sid].key)
    ensures Stuck(s.(pushes := s.pushes[pid := p]), sid, id)
  {
  }

  lemma BeginStuck(s: State, pid: nat, sid: nat, id: int)
    requires Stuck(s, sid, id)
    ensures Stuck(BeginStep(s, pid), sid, id)
  {
    if pid in s.pushes && s.pushes[pid].Committed? {
      assert sid in s.sessions ==> !MaySend(s.lists, s.sessions, s.pushes[pid], sid, s.sessions[sid].key);
      ProgressStuck(s, pid, BeginStep(s, pid).pushes[pid], sid, id);
    }
  }

  /** The scan was further back, with only open channels in between. */
  predicate Earlier(lists: N.Lists, sessions: map<nat, Session>, p: Progress, q: Progress)
    requires p.Fanning? && q.Fanning?
  {
    var slots := SlotsAt(lists.heap, p.arr);
    && p.row == q.row && p.arr == q.arr && p.scan.limit == q.scan.limit && p.scan.cursor <= q.scan.cursor <= |slots|
    && forall d :: p.scan.cursor <= d < q.scan.cursor ==> !ClosedAt(sessions, slots[d])
  }

  lemma EarlierSlot(lists: N.Lists, sessions: map<nat, Session>, p: Progress, q: Progress, sid: nat, j: nat)
    requires p.Fanning? && q.Fanning? && Earlier(lists, sessions, p, q) && ReachSlot(lists, sessions, q, sid, j)
    ensures ReachSlot(lists, sessions, p, sid, j)
  {
  }

  lemma EarlierShift(lists: N.Lists, sessions: map<nat, Session>, p: Progress, q: Progress, sid: nat, j: nat)
    requires p.Fanning? && q.Fanning? && Earlier(lists, sessions, p, q) && ReachShift(lists, sessions, q, sid, j)
    ensures ReachShift(lists, sessions, p, sid, j)
  {
  }

  lemma ReadReach(lists: N.Lists, sessions: map<nat, Session>, p: Progress, q: Progress, sid: nat)
    requires p.Fanning? && q.Fanning? && Earlier(lists, sessions, p, q) && CanCome(lists, sessions, q, sid)
    ensures CanCome(lists, sessions, p, sid)
  {
    if j: nat :| ReachSlot(lists, sessions, q, sid, j) {
      EarlierSlot(lists, sessions, p, q, sid, j);
    } else {
      var j: nat :| ReachShift(lists, sessions, q, sid, j);
      EarlierShift(lists, sessions, p, q, sid, j);
    }
  }

  lemma ReadMayNot(s: State, pid: nat, sid: nat, k: Key)
    requires pid in s.pushes && s.pushes[pid].Fanning? && s.pushes[pid].scan.hand.None?
    requires MaySend(s.lists, s.sessions, ReadStep(s, pid).pushes[pid], sid, k)
    ensures MaySend(s.lists, s.sessions, s.pushes[pid], sid, k)
  {
    var p, q := s.pushes[pid], ReadStep(s, pid).pushes[pid];
    if q.scan.hand == Some(sid) {
      assert ReachSlot(s.lists, s.sessions, p, sid, p.scan.cursor);
    } else {
      ReadReach(s.lists, s.sessions, p, q, sid);
    }
  }

  lemma ReadStuck(s: State, pid: nat, sid: nat, id: int)
    requires Stuck(s, sid, id)
    ensures Stuck(ReadStep(s, pid), sid, id)
  {
    if pid in s.pushes && s.pushes[pid].Fanning? && s.pushes[pid].scan.hand.None? {
      var q := ReadStep(s, pid).pushes[pid];
      if sid in s.sessions && MaySend(s.lists, s.sessions, q, sid, s.sessions[sid].key) {
        ReadMayNot(s, pid, sid, s.sessions[sid].key);
      }
      ProgressStuck(s, pid, q, sid, id);
    }
  }

  lemma SendMayNot(lists: N.Lists, sessions: map<nat, Session>, p: Progress, sid: nat, k: Key)
    requires p.Fanning? && p.scan.hand.Some? && !ClosedAt(sessions, p.scan.hand.value)
    requires MaySend(lists, sessions, p.(scan := p.scan.(hand := None)), sid, k)
    ensures MaySend(lists, sessions, p, sid, k)
  {
    var q := p.(scan := p.scan.(hand := None));
    if j: nat :| ReachSlot(lists, sessions, q, sid, j) {
      assert ReachSlot(lists, sessions, p, sid, j);
    } else {
      var j: nat :| ReachShift(lists, sessions, q, sid, j);
      assert ReachShift(lists, sessions, p, sid, j);
    }
  }

  /** The channel in hand is not sid's: the push would come to it. */
  lemma HandIsOther(s: State, pid: nat, sid: nat)
    requires ListsOk(s) && Holds(s, pid) && sid in s.sessions && !MaySignal(s, sid)
    requires !ClosedIn(s, s.pushes[pid].scan.hand.value)
    ensures s.pushes[pid].scan.hand.value != sid
  {
    assert ScanOk(s.lists.heap, s.sessions, s.pushes[pid]);
    assert !MaySend(s.lists, s.sessions, s.pushes[pid], sid, s.sessions[sid].key);
  }

  lemma SignalStuck(cfg: Config, s: State, ch: nat, sid: nat, id: int)
    requires Stuck(s, sid, id) && ch != sid
    ensures Stuck(AtStep(cfg, s, ch, Signal), sid, id)
  {
    if ch in s.sessions {
      OneStuck(s, AtStep(cfg, s, ch, Signal), ch, sid, id);
    }
  }

  lemma SentOnStuck(cfg: Config, s: State, pid: nat, sid: nat, id: int)
    requires ListsOk(s) && Stuck(s, sid, id) && Holds(s, pid) && !ClosedIn(s, s.pushes[pid].scan.hand.value)
    ensures Stuck(SentOn(cfg, s, pid), sid, id)
  {
    if sid in s.sessions {
      var p := s.pushes[pid];
      var s1, q := AtStep(cfg, s, p.scan.hand.value, Signal), p.(scan := p.scan.(hand := None));
      HandIsOther(s, pid, sid);
      SignalStuck(cfg, s, p.scan.hand.value, sid, id);
      SignalKeepsStages(cfg, s, p.scan.hand.value);
      if MaySend(s1.lists, s1.sessions, q, sid, s.sessions[sid].key) {
        SendMayNot(s1.lists, s1.sessions, p, sid, s.sessions[sid].key);
      }
      ProgressStuck(s1, pid, q, sid, id);
    }
  }

  lemma AckStuck(s: State, pid: nat, sid: nat, id: int)
    requires Stuck(s, sid, id)
    ensures Stuck(AckStep(s, pid), sid, id)
  {
    if pid in s.pushes && s.pushes[pid].Notified? {
      ProgressStuck(s, pid, AckStep(s, pid).pushes[pid], sid, id);
    }
  }

  // ---------------------------------------------------------------- the lists' steps

  /** What a subscription leaves of the sessions: only one's stage and the records differ. */
  lemma JoinSessions(cfg: Config, s: State, a: nat, spare: nat)
    requires a in s.sessions && s.sessions[a].pc.Acquired?
    ensures var s' := Step(cfg, s, Subscribe(a, true, spare));
            && s'.pushes == s.pushes && s'.lists == N.Subscribed(s.lists, s.sessions[a].key, a, spare)
            && (forall ch :: ch in s'.sessions <==> ch in s.sessions)
            && (forall ch :: ch in s.sessions && ch != a ==>
                  s'.sessions[ch].(behind := s.sessions[ch].behind) == s.sessions[ch])
            && s'.sessions[a].key == s.sessions[a].key && s'.sessions[a].cancelled == s.sessions[a].cancelled
            && s'.sessions[a].pc.FirstPeek? && s'.sessions[a].stage.Listening?
  {
  }

  /** The lists change, and nothing more for the session. */
  lemma ListStuck(s: State, s': State, sid: nat, id: int)
    requires Stuck(s, sid, id) && s'.pushes == s.pushes && sid in s.sessions && sid in s'.sessions
    requires s'.sessions[sid].(behind := s.sessions[sid].behind) == s.sessions[sid]
    requires forall p :: p in s.pushes ==> !MaySend(s'.lists, s'.sessions, s.pushes[p], sid, s.sessions[sid].key)
    ensures Stuck(s', sid, id)
  {
    assert Known(s'.sessions[sid]) == Known(s.sessions[sid]);
  }

  /** The fan-out reads the array that l's list is in. */
  predicate ReadsList(lists: N.Lists, l: Key, p: Progress) {
    p.Fanning? && l in lists.subs && lists.subs[l].arr == p.arr
  }

  /** The fan-out's array was made for its key. */
  predicate OwnArray(lists: N.Lists, p: Progress) {
    p.Fanning? && p.scan.limit > 0 ==> p.arr < |lists.heap| && lists.heap[p.arr].owner == p.row.recipient
  }

  lemma JoinUnhelped(lists: N.Lists, l: Key, ch: nat, spare: nat, p: Progress)
    requires N.Sound(lists) && OwnArray(lists, p) && !(N.HasSpare(lists, l) && ReadsList(lists, l, p))
    ensures Unhelped(lists, N.Subscribed(lists, l, ch, spare), p)
  {
  }

  /** A subscription in place clears one stale slot and uses up one that was joining. */
  lemma JoinMay(lists: N.Lists, a: map<nat, Session>, b: map<nat, Session>, p: Progress, sid: nat, x: nat)
    requires p.Fanning? && Current(lists, p) && N.HasSpare(lists, p.row.recipient) && x != sid
    requires NoHelp(a, b, p.row.recipient)
    requires x in Joining(a, p.row.recipient) && x !in Joining(b, p.row.recipient)
    requires MaySend(N.Subscribed(lists, p.row.recipient, x, 0), b, p, sid, p.row.recipient)
    ensures MaySend(lists, a, p, sid, p.row.recipient)
  {
    var k, lists' := p.row.recipient, N.Subscribed(lists, p.row.recipient, x, 0);
    SubsetSize(Joining(b, k) + {x}, Joining(a, k));
    if p.scan.hand != Some(sid) {
      if j: nat :| ReachSlot(lists', b, p, sid, j) {
        JoinSlot(lists, a, b, p, sid, x, j);
      } else {
        var q: nat :| ReachShift(lists', b, p, sid, q);
        JoinShift(lists, a, b, p, sid, x, q);
      }
    }
  }

  lemma JoinSlot(lists: N.Lists, a: map<nat, Session>, b: map<nat, Session>, p: Progress, sid: nat, x: nat, j: nat)
    requires p.Fanning? && Current(lists, p) && N.HasSpare(lists, p.row.recipient) && x != sid
    requires NoHelp(a, b, p.row.recipient) && |Joining(b, p.row.recipient)| < |Joining(a, p.row.recipient)|
    requires ReachSlot(N.Subscribed(lists, p.row.recipient, x, 0), b, p, sid, j)
    ensures ReachSlot(lists, a, p, sid, j)
  {
    var slots := SlotsAt(lists.heap, p.arr);
    var after := N.Put(slots, lists.subs[p.row.recipient].len, x);
    assert SlotsAt(N.Subscribed(lists, p.row.recipient, x, 0).heap, p.arr) == after;
  }

  lemma JoinShift(lists: N.Lists, a: map<nat, Session>, b: map<nat, Session>, p: Progress, sid: nat, x: nat, q: nat)
    requires p.Fanning? && Current(lists, p) && N.HasSpare(lists, p.row.recipient) && x != sid
    requires NoHelp(a, b, p.row.recipient)
    requires ReachShift(N.Subscribed(lists, p.row.recipient, x, 0), b, p, sid, q)
    ensures ReachShift(lists, a, p, sid, q)
  {
    var slots, len := SlotsAt(lists.heap, p.arr), lists.subs[p.row.recipient].len;
    var after := N.Put(slots, len, x);
    assert SlotsAt(N.Subscribed(lists, p.row.recipient, x, 0).heap, p.arr) == after;
    assert q < len && after[..q] == slots[..q];
    SubsetSize(Leaving(b, slots[..q]), Leaving(a, slots[..q]));
  }

  lemma OwnArrays(s: State, pid: nat)
    requires ListsOk(s) && pid in s.pushes
    ensures OwnArray(s.lists, s.pushes[pid])
  {
    assert s.pushes[pid].Fanning? ==> ScanOk(s.lists.heap, s.sessions, s.pushes[pid]);
  }

  lemma SubscribedMay(lists: N.Lists, a: map<nat, Session>, b: map<nat, Session>, p: Progress, sid: nat, k: Key,
                      l: Key, x: nat, spare: nat)
    requires N.Sound(lists) && OwnArray(lists, p) && x != sid && NoHelp(a, b, k)
    requires x in Joining(a, l) && x !in Joining(b, l)
    requires MaySend(N.Subscribed(lists, l, x, spare), b, p, sid, k)
    ensures MaySend(lists, a, p, sid, k)
  {
    if p.Fanning? && p.scan.limit > 0 && N.HasSpare(lists, l) && ReadsList(lists, l, p) {
      assert N.Subscribed(lists, l, x, spare) == N.Subscribed(lists, l, x, 0);
      JoinMay(lists, a, b, p, sid, x);
    } else if p.Fanning? {
      if p.scan.limit > 0 { JoinUnhelped(lists, l, x, spare, p); }
      UnhelpedMay(lists, N.Subscribed(lists, l, x, spare), a, b, p, sid, k);
    }
  }

  lemma JoinNoHelp(cfg: Config, s: State, a: nat, spare: nat, k: Key)
    requires a in s.sessions && s.sessions[a].pc.Acquired? && s.sessions[a].stage.NotYet?
    ensures var s' := Step(cfg, s, Subscribe(a, true, spare));
            && NoHelp(s.sessions, s'.sessions, k)
            && a in Joining(s.sessions, s.sessions[a].key) && a !in Joining(s'.sessions, s.sessions[a].key)
  {
    JoinSessions(cfg, s, a, spare);
  }

  /** No push may come to the session after the subscription that could not before. */
  lemma JoinMaySignal(s: State, b: map<nat, Session>, o: nat, spare: nat, sid: nat)
    requires ListsOk(s) && sid in s.sessions && NoHelp(s.sessions, b, s.sessions[sid].key) && o != sid
    requires o in s.sessions && o in Joining(s.sessions, s.sessions[o].key) && o !in Joining(b, s.sessions[o].key)
    requires !MaySignal(s, sid)
    ensures var lists := N.Subscribed(s.lists, s.sessions[o].key, o, spare);
            forall p :: p in s.pushes ==> !MaySend(lists, b, s.pushes[p], sid, s.sessions[sid].key)
  {
    var k, l := s.sessions[sid].key, s.sessions[o].key;
    forall p | p in s.pushes ensures !MaySend(N.Subscribed(s.lists, l, o, spare), b, s.pushes[p], sid, k) {
      OwnArrays(s, p);
      if MaySend(N.Subscribed(s.lists, l, o, spare), b, s.pushes[p], sid, k) {
        SubscribedMay(s.lists, s.sessions, b, s.pushes[p], sid, k, l, o, spare);
      }
    }
  }

  lemma SubscribeStuck(cfg: Config, s: State, o: nat, spare: nat, sid: nat, id: int)
    requires ListsOk(s) && Stuck(s, sid, id)
    ensures Stuck(Step(cfg, s, Subscribe(o, true, spare)), sid, id)
  {
    if sid in s.sessions && o in s.sessions && s.sessions[o].pc.Acquired? {
      var s' := Step(cfg, s, Subscribe(o, true, spare));
      assert Placed(s.sessions[o]);
      JoinNoHelp(cfg, s, o, spare, s.sessions[sid].key);
      JoinMaySignal(s, s'.sessions, o, spare, sid);
      JoinSessions(cfg, s, o, spare);
      ListStuck(s, s', sid, id);
    }
  }

  /** Slot i of the current list holds the channel of a cancelled session; the list is open. */
  ghost predicate Removable(lists: N.Lists, a: map<nat, Session>, p: Progress, i: nat)
    requires p.Fanning?
  {
    && Current(lists, p) && N.Fits(lists.heap, lists.subs[p.row.recipient])
    && N.Distinct(N.Listed(lists, p.row.recipient)) && i < lists.subs[p.row.recipient].len
    && var slots := SlotsAt(lists.heap, p.arr);
    && slots[i] in a && a[slots[i]].cancelled
    && forall d: nat :: d < lists.subs[p.row.recipient].len ==> !ClosedAt(a, slots[d])
  }

  /** The channel was where the shift took it from, or just behind the fan-out's slots with the
      one that left before it. */
  lemma LeaveSlot(lists: N.Lists, a: map<nat, Session>, b: map<nat, Session>, p: Progress, sid: nat, i: nat, j: nat)
    requires p.Fanning? && Removable(lists, a, p, i) && NoHelp(a, b, p.row.recipient)
    requires var lists' := N.Unsubscribed(lists, p.row.recipient, SlotsAt(lists.heap, p.arr)[i]);
             ReachSlot(lists', b, p, sid, j)
    ensures ReachSlot(lists, a, p, sid, j) || ReachSlot(lists, a, p, sid, j + 1) || ReachShift(lists, a, p, sid, j + 1)
  {
    var slots, len := SlotsAt(lists.heap, p.arr), lists.subs[p.row.recipient].len;
    RemovalArray(lists, p.row.recipient, i);
    SubsetSize(Joining(b, p.row.recipient), Joining(a, p.row.recipient));
    if i <= j < len - 1 {
      MovedSlot(lists, a, p, sid, i, j);
    } else {
      KeptSlot(lists, a, b, p, sid, i, j);
    }
  }

  lemma KeptSlot(lists: N.Lists, a: map<nat, Session>, b: map<nat, Session>, p: Progress, sid: nat, i: nat, j: nat)
    requires p.Fanning? && Removable(lists, a, p, i)
    requires forall ch :: ClosedAt(a, ch) ==> ClosedAt(b, ch)
    requires |Joining(b, p.row.recipient)| <= |Joining(a, p.row.recipient)|
    requires var slots, len := SlotsAt(lists.heap, p.arr), lists.subs[p.row.recipient].len;
             && (j < i || j >= len - 1) && p.scan.cursor <= j < p.scan.limit && j < |slots| && slots[j] == sid
             && forall d :: p.scan.cursor <= d < j && ClosedAt(b, N.Shifted(slots, len, i)[d])
                            ==> d < len + |Joining(b, p.row.recipient)|
    ensures ReachSlot(lists, a, p, sid, j)
  {
    var slots, len := SlotsAt(lists.heap, p.arr), lists.subs[p.row.recipient].len;
    forall d | p.scan.cursor <= d < j && ClosedAt(a, slots[d]) ensures d < Clearable(lists, a, p) {
      assert d >= len ==> N.Shifted(slots, len, i)[d] == slots[d];
    }
  }

  lemma MovedSlot(lists: N.Lists, a: map<nat, Session>, p: Progress, sid: nat, i: nat, j: nat)
    requires p.Fanning? && Removable(lists, a, p, i)
    requires var slots, len := SlotsAt(lists.heap, p.arr), lists.subs[p.row.recipient].len;
             i <= j < len - 1 && p.scan.cursor <= j < p.scan.limit && slots[j + 1] == sid
    ensures ReachSlot(lists, a, p, sid, j + 1) || ReachShift(lists, a, p, sid, j + 1)
  {
    var slots := SlotsAt(lists.heap, p.arr);
    if j + 1 == p.scan.limit {
      assert slots[..j + 1][i] == slots[i];
      assert slots[i] in Leaving(a, slots[..j + 1]);
    }
  }

  lemma LeaveShift(lists: N.Lists, a: map<nat, Session>, b: map<nat, Session>, p: Progress, sid: nat, i: nat, q: nat)
    requires p.Fanning? && Removable(lists, a, p, i) && SameCancelled(a, b)
    requires var lists' := N.Unsubscribed(lists, p.row.recipient, SlotsAt(lists.heap, p.arr)[i]);
             ReachShift(lists', b, p, sid, q)
    ensures ReachShift(lists, a, p, sid, q) || ReachShift(lists, a, p, sid, q + 1)
  {
    RemovalArray(lists, p.row.recipient, i);
    if q < i {
      BelowShift(SlotsAt(lists.heap, p.arr), lists.subs[p.row.recipient].len, a, b, i, q);
    } else {
      AboveShift(lists, a, b, p, i, q);
    }
  }

  lemma BelowShift(slots: seq<nat>, len: nat, a: map<nat, Session>, b: map<nat, Session>, i: nat, q: nat)
    requires q < i < len <= |slots| && SameCancelled(a, b)
    ensures N.Shifted(slots, len, i)[q] == slots[q]
    ensures |Leaving(b, N.Shifted(slots, len, i)[..q])| == |Leaving(a, slots[..q])|
  {
    assert N.Shifted(slots, len, i)[..q] == slots[..q];
    assert Leaving(b, slots[..q]) == Leaving(a, slots[..q]);
  }

  lemma AboveShift(lists: N.Lists, a: map<nat, Session>, b: map<nat, Session>, p: Progress, i: nat, q: nat)
    requires p.Fanning? && Removable(lists, a, p, i) && SameCancelled(a, b)
    requires i <= q < lists.subs[p.row.recipient].len - 1
    ensures var slots, len := SlotsAt(lists.heap, p.arr), lists.subs[p.row.recipient].len;
            && N.Shifted(slots, len, i)[q] == slots[q + 1]
            && |Leaving(b, N.Shifted(slots, len, i)[..q])| == |Leaving(a, slots[..q + 1])| - 1
  {
    var slots, len := SlotsAt(lists.heap, p.arr), lists.subs[p.row.recipient].len;
    assert slots[..len] == N.Listed(lists, p.row.recipient);
    FewerLeaving(a, b, slots, len, i, q + 1);
  }

  lemma LeaveMay(lists: N.Lists, a: map<nat, Session>, b: map<nat, Session>, p: Progress, sid: nat, i: nat)
    requires p.Fanning? && Removable(lists, a, p, i) && SameCancelled(a, b) && NoHelp(a, b, p.row.recipient)
    requires var lists' := N.Unsubscribed(lists, p.row.recipient, SlotsAt(lists.heap, p.arr)[i]);
             MaySend(lists', b, p, sid, p.row.recipient)
    ensures MaySend(lists, a, p, sid, p.row.recipient)
  {
    var lists' := N.Unsubscribed(lists, p.row.recipient, SlotsAt(lists.heap, p.arr)[i]);
    if p.scan.hand != Some(sid) {
      if j: nat :| ReachSlot(lists', b, p, sid, j) {
        LeaveSlot(lists, a, b, p, sid, i, j);
      } else {
        var q: nat :| ReachShift(lists', b, p, sid, q);
        LeaveShift(lists, a, b, p, sid, i, q);
      }
    }
  }

  lemma LeaveUnhelped(lists: N.Lists, l: Key, i: nat, p: Progress)
    requires N.Sound(lists) && OwnArray(lists, p) && l in lists.subs && i < lists.subs[l].len
    requires N.Distinct(N.Listed(lists, l)) && !ReadsList(lists, l, p)
    ensures Unhelped(lists, N.Unsubscribed(lists, l, lists.heap[lists.subs[l].arr].slots[i]), p)
  {
    RemovalArray(lists, l, i);
    if p.Fanning? && p.scan.limit > 0 {
      OtherArray(lists, l, p);
    }
  }

  lemma OtherArray(lists: N.Lists, l: Key, p: Progress)
    requires N.Sound(lists) && OwnArray(lists, p) && l in lists.subs && !ReadsList(lists, l, p)
    requires p.Fanning? && p.scan.limit > 0
    ensures p.arr != lists.subs[l].arr
  {
  }

  /** A listening session's place in its list. */
  lemma ListPlace(s: State, o: nat) returns (i: nat)
    requires ListsOk(s) && o in s.sessions && s.sessions[o].stage.Listening?
    ensures var k := s.sessions[o].key;
            && k in s.lists.subs && N.Owns(s.lists.heap, s.lists.subs[k], k) && N.Distinct(N.Listed(s.lists, k))
            && i < s.lists.subs[k].len && s.lists.heap[s.lists.subs[k].arr].slots[i] == o
  {
    var k := s.sessions[o].key;
    assert o in N.Listed(s.lists, k);
    i :| i < |N.Listed(s.lists, k)| && N.Listed(s.lists, k)[i] == o;
  }

  /** ... is one that a removal may take it from. */
  lemma PlaceRemovable(s: State, o: nat, i: nat, pid: nat)
    requires ListsOk(s) && o in s.sessions && s.sessions[o].cancelled && pid in s.pushes
    requires s.pushes[pid].Fanning? && Current(s.lists, s.pushes[pid])
    requires s.pushes[pid].row.recipient == s.sessions[o].key
    requires var k := s.sessions[o].key;
             && N.Fits(s.lists.heap, s.lists.subs[k]) && N.Distinct(N.Listed(s.lists, k))
             && i < s.lists.subs[k].len && s.lists.heap[s.lists.subs[k].arr].slots[i] == o
    ensures Removable(s.lists, s.sessions, s.pushes[pid], i)
  {
    ListedFacts(s, pid);
  }

  lemma UnsubscribedMay(s: State, b: map<nat, Session>, pid: nat, o: nat, i: nat, sid: nat)
    requires ListsOk(s) && pid in s.pushes && sid in s.sessions && NoHelp(s.sessions, b, s.sessions[sid].key)
    requires SameCancelled(s.sessions, b) && o in s.sessions && s.sessions[o].cancelled
    requires var l := s.sessions[o].key;
             && l in s.lists.subs && N.Owns(s.lists.heap, s.lists.subs[l], l) && N.Distinct(N.Listed(s.lists, l))
             && i < s.lists.subs[l].len && s.lists.heap[s.lists.subs[l].arr].slots[i] == o
    requires MaySend(N.Unsubscribed(s.lists, s.sessions[o].key, o), b, s.pushes[pid], sid, s.sessions[sid].key)
    ensures MaySend(s.lists, s.sessions, s.pushes[pid], sid, s.sessions[sid].key)
  {
    var p, k, l := s.pushes[pid], s.sessions[sid].key, s.sessions[o].key;
    OwnArrays(s, pid);
    if p.Fanning? && ReadsList(s.lists, l, p) && p.row.recipient == l {
      PlaceRemovable(s, o, i, pid);
      LeaveMay(s.lists, s.sessions, b, p, sid, i);
    } else if p.Fanning? {
      if p.scan.limit > 0 { LeaveUnhelped(s.lists, l, i, p); }
      UnhelpedMay(s.lists, N.Unsubscribed(s.lists, l, o), s.sessions, b, p, sid, k);
    }
  }

  lemma RemovalNoHelp(cfg: Config, s: State, o: nat, k: Key)
    requires o in s.sessions && s.sessions[o].cancelled && s.sessions[o].stage.Listening?
    ensures var s' := Step(cfg, s, Unsubscribe(o));
            NoHelp(s.sessions, s'.sessions, k) && SameCancelled(s.sessions, s'.sessions)
  {
    RemovalSessions(cfg, s, o);
  }

  /** No push may come to the session after the removal that could not before. */
  lemma RemovalMaySignal(s: State, b: map<nat, Session>, o: nat, sid: nat)
    requires ListsOk(s) && sid in s.sessions && NoHelp(s.sessions, b, s.sessions[sid].key)
    requires SameCancelled(s.sessions, b)
    requires o in s.sessions && s.sessions[o].cancelled && s.sessions[o].stage.Listening? && !MaySignal(s, sid)
    ensures var lists := N.Unsubscribed(s.lists, s.sessions[o].key, o);
            forall p :: p in s.pushes ==> !MaySend(lists, b, s.pushes[p], sid, s.sessions[sid].key)
  {
    var i := ListPlace(s, o);
    forall p | p in s.pushes
      ensures !MaySend(N.Unsubscribed(s.lists, s.sessions[o].key, o), b, s.pushes[p], sid, s.sessions[sid].key)
    {
      if MaySend(N.Unsubscribed(s.lists, s.sessions[o].key, o), b, s.pushes[p], sid, s.sessions[sid].key) {
        UnsubscribedMay(s, b, p, o, i, sid);
      }
    }
  }

  lemma UnsubscribeStuck(cfg: Config, s: State, o: nat, sid: nat, id: int)
    requires ListsOk(s) && Stuck(s, sid, id)
    ensures Stuck(Step(cfg, s, Unsubscribe(o)), sid, id)
  {
    if sid in s.sessions && o in s.sessions && s.sessions[o].cancelled && s.sessions[o].stage.Listening? {
      var s' := Step(cfg, s, Unsubscribe(o));
      RemovalNoHelp(cfg, s, o, s.sessions[sid].key);
      RemovalMaySignal(s, s'.sessions, o, sid);
      RemovalSessions(cfg, s, o);
      ListStuck(s, s', sid, id);
    }
  }

  // ---------------------------------------------------------------- every run

  /** Whatever can happen without a new connection, a further push or a context that ends: the
      relay's own steps, failing ones too, frames from the Devices, reaps, restarts. */
  predicate Unaided(ev: Event) {
    !(ev.At? && (ev.e == Signal || ev.e == Cancel)) && !ev.Connect? && !ev.PushFrame?
  }

  predicate AllUnaided(evs: seq<Event>) {
    forall ev :: ev in evs ==> Unaided(ev)
  }

  lemma TableStuck(s: State, t: Table, sid: nat, id: int)
    requires Stuck(s, sid, id)
    ensures Stuck(s.(table := t), sid, id)
  {
  }

  lemma InboundStuck(cfg: Config, s: State, o: nat, plain: Bytes, fault: bool, sid: nat, id: int)
    requires Stuck(s, sid, id)
    ensures Stuck(InboundStep(cfg, s, o, plain, fault), sid, id)
  {
    if o in s.sessions {
      SayIsOutput(cfg, s, o, W.Complain);
      SayIsOutput(cfg, s, o, W.Echo);
      TableStuck(s, DeletedTable(s, o, plain), sid, id);
    }
    AtStuck(cfg, s, o, Output(W.Complain), sid, id);
    AtStuck(cfg, s, o, Output(W.Echo), sid, id);
  }

  lemma LeaveStuck(cfg: Config, s: State, o: nat, sid: nat, id: int)
    requires Stuck(s, sid, id) && o in s.sessions && s.sessions[o].pc.Acquired?
    ensures Stuck(Step(cfg, s, Subscribe(o, false, 0)), sid, id)
  {
    OneStuck(s, Step(cfg, s, Subscribe(o, false, 0)), o, sid, id);
  }

  lemma StepStuck(cfg: Config, s: State, ev: Event, sid: nat, id: int)
    requires ListsOk(s) && Stuck(s, sid, id) && Unaided(ev)
    ensures Stuck(Step(cfg, s, ev), sid, id)
  {
    match ev
    case At(o, e) => AtStuck(cfg, s, o, e, sid, id);
    case Subscribe(o, ok, spare) => JoinStuck(cfg, s, o, ok, spare, sid, id);
    case Unsubscribe(o) => UnsubscribeStuck(cfg, s, o, sid, id);
    case CloseChannel(o) => CloseStuck(s, o, sid, id);
    case Teardown(o) => TeardownStuck(cfg, s, o, sid, id);
    case Inbound(o, plain, fault) => InboundStuck(cfg, s, o, plain, fault, sid, id);
    case BeginNotify(pid) => BeginStuck(s, pid, sid, id);
    case NotifyRead(pid) => ReadStuck(s, pid, sid, id);
    case NotifySend(pid) => SendStuck(cfg, s, pid, sid, id);
    case AckPush(pid) => AckStuck(s, pid, sid, id);
    case ReapNow(wall) => TableStuck(s, Reap(s.table, wall), sid, id);
    case Crash =>
  }

  lemma JoinStuck(cfg: Config, s: State, o: nat, ok: bool, spare: nat, sid: nat, id: int)
    requires ListsOk(s) && Stuck(s, sid, id)
    ensures Stuck(SubscribeStep(cfg, s, o, ok, spare), sid, id)
  {
    if ok {
      SubscribeStuck(cfg, s, o, spare, sid, id);
    } else if o in s.sessions && s.sessions[o].pc.Acquired? {
      LeaveStuck(cfg, s, o, sid, id);
    }
  }

  lemma SendStuck(cfg: Config, s: State, pid: nat, sid: nat, id: int)
    requires ListsOk(s) && Stuck(s, sid, id)
    ensures Stuck(SendStep(cfg, s, pid), sid, id)
  {
    if Holds(s, pid) && !ClosedIn(s, s.pushes[pid].scan.hand.value) {
      SentOnStuck(cfg, s, pid, sid, id);
    }
  }

  lemma {:induction false} RunStuck(cfg: Config, s: State, evs: seq<Event>, sid: nat, id: int)
    requires cfg.Ok() && Inv(cfg, s) && Stuck(s, sid, id) && AllUnaided(evs)
    ensures Stuck(Run(cfg, s, evs), sid, id)
  {
    if evs != [] {
      var init := evs[..|evs| - 1];
      assert forall ev :: ev in init ==> ev in evs;
      RunStuck(cfg, s, init, sid, id);
      RunInv(cfg, s, init);
      assert evs[|evs| - 1] in evs;
      StepStuck(cfg, Run(cfg, s, init), evs[|evs| - 1], sid, id);
    }
  }

  /** What a Device has decoded lies at or below its session's mark. */
  lemma DecodedIsBounded(cfg: Config, s: State, sid: nat, b: Blob)
    requires cfg.Ok() && StreamsOkFor(cfg, s, sid)
    requires b in W.DeviceBlobs(cfg.cipher, s.sessions[sid].out.stream)
    ensures b.id <= Bound(s.sessions[sid])
  {
    var ss := s.sessions[sid];
    SeenIsSome(cfg.cipher, s.table, ss, |ss.out.stream|);
    assert ss.out.stream[..|ss.out.stream|] == ss.out.stream;
    LastIsMax(Known(ss), b);
  }

  ghost predicate StreamsOkFor(cfg: Config, s: State, sid: nat) {
    sid in s.sessions && SessionOk(cfg, s.table, s.accepted, s.sessions[sid])
  }

  lemma StuckNeverDelivers(cfg: Config, s: State, sid: nat, r: Row, evs: seq<Event>)
    requires cfg.Ok() && Inv(cfg, s) && Stuck(s, sid, r.id) && AllUnaided(evs)
    ensures !Delivers(cfg, s, evs, sid, r)
  {
    RunStuck(cfg, s, evs, sid, r.id);
    RunInv(cfg, s, evs);
    if Delivers(cfg, s, evs, sid, r) {
      DecodedIsBounded(cfg, Run(cfg, s, evs), sid, r.ToBlob());
    }
  }

  /** In every reachable state: if the session is going to look at its Inbox, or a push can still
      come to its channel, or it has already looked past the row, then the relay's own steps can
      bring a stored row to its live session's Device; and if not, nothing that happens without a
      new connection, a further push or a context that ends ever will. */
  lemma DeliverableExactly(cfg: Config, s: State, sid: nat, r: Row)
    requires cfg.Ok() && Inv(cfg, s) && sid in s.sessions && r in s.table.rows && r.recipient == s.sessions[sid].key
    requires Live(s.sessions[sid]) && WriterUp(s.sessions[sid])
    ensures WillLook(s, sid) || r.id <= Bound(s.sessions[sid])
            <==> exists evs :: AllInternal(evs) && Delivers(cfg, s, evs, sid, r)
    ensures WillLook(s, sid) || r.id <= Bound(s.sessions[sid])
            <==> exists evs :: AllUnaided(evs) && Delivers(cfg, s, evs, sid, r)
  {
    if WillLook(s, sid) || r.id <= Bound(s.sessions[sid]) {
      var evs := StillDeliverable(cfg, s, sid, r);
      OwnIsUnaided(evs);
    } else {
      forall evs | AllUnaided(evs) ensures !Delivers(cfg, s, evs, sid, r) {
        StuckNeverDelivers(cfg, s, sid, r, evs);
      }
      forall evs | AllInternal(evs) ensures AllUnaided(evs) {
        OwnIsUnaided(evs);
      }
    }
  }

  lemma OwnIsUnaided(evs: seq<Event>)
    requires AllInternal(evs)
    ensures AllUnaided(evs)
  {
    forall ev | ev in evs ensures Unaided(ev) {
      assert Internal(ev);
    }
  }
}
