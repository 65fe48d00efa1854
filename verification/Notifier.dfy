/**
  The in-process notifier (internal/notify/inprocess/notifier.go).  A key's list is a slice
  over a backing array; appending and removing write that array in place, and a fan-out reads
  it without the lock.
 */
module Notifier {
  import opened Base

  /** A subscriber's one-slot channel, by number. */
  type Chan = nat

  /** The slots of a backing array that have been written, and its capacity.  `owner` is
      history: the key whose list the array was made for. */
  datatype Array = Array(owner: Key, slots: seq<Chan>, cap: nat)

  datatype Slice = Slice(arr: nat, len: nat)

  datatype Lists = Lists(heap: seq<Array>, subs: map<Key, Slice>)

  const NoLists := Lists([], map[])

  predicate Fits(heap: seq<Array>, sl: Slice) {
    sl.arr < |heap| && sl.len <= |heap[sl.arr].slots|
  }

  predicate Owns(heap: seq<Array>, sl: Slice, k: Key) {
    Fits(heap, sl) && sl.len > 0 && heap[sl.arr].owner == k
  }

  /** Every slice fits an array made for its key. */
  ghost predicate Sound(ls: Lists) {
    && (forall k :: k in ls.subs ==> Owns(ls.heap, ls.subs[k], k))
    && (forall a: nat :: a < |ls.heap| ==> |ls.heap[a].slots| <= ls.heap[a].cap)
  }

  function Listed(ls: Lists, k: Key): seq<Chan> {
    if k in ls.subs && Fits(ls.heap, ls.subs[k]) then ls.heap[ls.subs[k].arr].slots[..ls.subs[k].len] else []
  }

  ghost predicate Distinct(chs: seq<Chan>) {
    forall i, j :: 0 <= i < j < |chs| ==> chs[i] != chs[j]
  }

  // ---------------------------------------------------------------- append and remove

  function Put(slots: seq<Chan>, j: nat, ch: Chan): (r: seq<Chan>)
    requires j <= |slots|
    ensures |r| == if j < |slots| then |slots| else |slots| + 1
    ensures r[j] == ch && forall i :: 0 <= i < |slots| && i != j ==> r[i] == slots[i]
  {
    if j < |slots| then slots[j := ch] else slots + [ch]
  }

  /** k's backing array and the length of its slice change; an empty list is dropped. */
  function Rewrite(ls: Lists, k: Key, slots: seq<Chan>, len: nat): Lists
    requires k in ls.subs && ls.subs[k].arr < |ls.heap|
  {
    var arr := ls.subs[k].arr;
    Lists(ls.heap[arr := ls.heap[arr].(slots := slots)],
          if len == 0 then ls.subs - {k} else ls.subs[k := Slice(arr, len)])
  }

  /** The slice has capacity left. */
  predicate HasSpare(ls: Lists, k: Key) {
    k in ls.subs && Fits(ls.heap, ls.subs[k]) && ls.subs[k].len < ls.heap[ls.subs[k].arr].cap
  }

  /** append of one element: in place while there is capacity, else into a new array with
      `spare` more slots than it needs. */
  function Subscribed(ls: Lists, k: Key, ch: Chan, spare: nat): Lists {
    if HasSpare(ls, k) then
      var sl := ls.subs[k];
      Rewrite(ls, k, Put(ls.heap[sl.arr].slots, sl.len, ch), sl.len + 1)
    else
      var chs := Listed(ls, k) + [ch];
      Lists(ls.heap + [Array(k, chs, |chs| + spare)], ls.subs[k := Slice(|ls.heap|, |chs|)])
  }

  /** The array after index i of a list of length len is removed: later elements move down one
      slot, and the slot after the list keeps what it held. */
  function Shifted(slots: seq<Chan>, len: nat, i: nat): (r: seq<Chan>)
    requires i < len <= |slots|
    ensures |r| == |slots|
    ensures forall j :: 0 <= j < |slots| ==> r[j] == if i <= j < len - 1 then slots[j + 1] else slots[j]
  {
    slots[..i] + slots[i + 1..len] + slots[len - 1..]
  }

  function IndexOf(chs: seq<Chan>, ch: Chan): (i: nat)
    requires ch in chs
    ensures i < |chs| && chs[i] == ch && forall j :: 0 <= j < i ==> chs[j] != ch
  {
    if chs[0] == ch then 0 else
      assert chs == [chs[0]] + chs[1..];
      IndexOf(chs[1..], ch) + 1
  }

  /** k's list loses index i. */
  function RemovedAt(ls: Lists, k: Key, i: nat): Lists
    requires k in ls.subs && Fits(ls.heap, ls.subs[k]) && i < ls.subs[k].len
  {
    var sl := ls.subs[k];
    Rewrite(ls, k, Shifted(ls.heap[sl.arr].slots, sl.len, i), sl.len - 1)
  }

  function Unsubscribed(ls: Lists, k: Key, ch: Chan): Lists {
    if ch in Listed(ls, k) then RemovedAt(ls, k, IndexOf(Listed(ls, k), ch)) else ls
  }

  function Without(chs: seq<Chan>, i: nat): (r: seq<Chan>)
    requires i < |chs|
    ensures |r| == |chs| - 1
    ensures forall j :: 0 <= j < |r| ==> r[j] == if j < i then chs[j] else chs[j + 1]
  {
    chs[..i] + chs[i + 1..]
  }

  // ---------------------------------------------------------------- what they do to the lists

  /** Arrays never lose slots and never change their owner. */
  ghost predicate Grows(h: seq<Array>, g: seq<Array>) {
    |h| <= |g| && forall a: nat :: a < |h| ==> g[a].owner == h[a].owner && |h[a].slots| <= |g[a].slots|
  }

  /** A subscription adds the channel to the end of its own key's list and leaves every other
      list alone, wherever the backing array is. */
  lemma SubscribedLists(ls: Lists, k: Key, ch: Chan, spare: nat, l: Key)
    requires Sound(ls)
    ensures Sound(Subscribed(ls, k, ch, spare)) && Grows(ls.heap, Subscribed(ls, k, ch, spare).heap)
    ensures Listed(Subscribed(ls, k, ch, spare), k) == Listed(ls, k) + [ch]
    ensures l != k ==> Listed(Subscribed(ls, k, ch, spare), l) == Listed(ls, l)
  {
    if HasSpare(ls, k) {
      WrittenInPlace(ls, k, ch, l);
    } else {
      Moved(ls, k, Listed(ls, k) + [ch], spare, l);
    }
  }

  lemma WrittenInPlace(ls: Lists, k: Key, ch: Chan, l: Key)
    requires Sound(ls) && HasSpare(ls, k)
    ensures var slots, len := ls.heap[ls.subs[k].arr].slots, ls.subs[k].len;
            var ls' := Rewrite(ls, k, Put(slots, len, ch), len + 1);
            && Sound(ls') && Grows(ls.heap, ls'.heap) && Listed(ls', k) == Listed(ls, k) + [ch]
            && (l != k ==> Listed(ls', l) == Listed(ls, l))
  {
    var slots, len := ls.heap[ls.subs[k].arr].slots, ls.subs[k].len;
    PutPrefix(slots, len, ch);
    RewrittenLists(ls, k, Put(slots, len, ch), len + 1, l);
  }

  /** Only k's list has changed. */
  lemma RewrittenLists(ls: Lists, k: Key, slots: seq<Chan>, len: nat, l: Key)
    requires Sound(ls) && k in ls.subs && len <= |slots|
    requires |ls.heap[ls.subs[k].arr].slots| <= |slots| <= ls.heap[ls.subs[k].arr].cap
    ensures Sound(Rewrite(ls, k, slots, len)) && Grows(ls.heap, Rewrite(ls, k, slots, len).heap)
    ensures Listed(Rewrite(ls, k, slots, len), k) == slots[..len]
    ensures l != k ==> Listed(Rewrite(ls, k, slots, len), l) == Listed(ls, l)
  {
  }

  lemma Moved(ls: Lists, k: Key, chs: seq<Chan>, spare: nat, l: Key)
    requires Sound(ls) && chs != []
    ensures var ls' := Lists(ls.heap + [Array(k, chs, |chs| + spare)], ls.subs[k := Slice(|ls.heap|, |chs|)]);
            && Sound(ls') && Grows(ls.heap, ls'.heap) && Listed(ls', k) == chs
            && (l != k ==> Listed(ls', l) == Listed(ls, l))
  {
    assert chs[..|chs|] == chs;
  }

  lemma PutPrefix(slots: seq<Chan>, j: nat, ch: Chan)
    requires j <= |slots|
    ensures Put(slots, j, ch)[..j + 1] == slots[..j] + [ch]
  {
  }

  /** An unsubscription takes its channel out of its own key's list, keeps the others there in
      order, and leaves every other list alone. */
  lemma UnsubscribedLists(ls: Lists, k: Key, ch: Chan, l: Key)
    requires Sound(ls)
    ensures Sound(Unsubscribed(ls, k, ch)) && Grows(ls.heap, Unsubscribed(ls, k, ch).heap)
    ensures Listed(Unsubscribed(ls, k, ch), k)
            == if ch in Listed(ls, k) then Without(Listed(ls, k), IndexOf(Listed(ls, k), ch)) else Listed(ls, k)
    ensures l != k ==> Listed(Unsubscribed(ls, k, ch), l) == Listed(ls, l)
  {
    if ch in Listed(ls, k) {
      var sl, i := ls.subs[k], IndexOf(Listed(ls, k), ch);
      ShiftedPrefix(ls.heap[sl.arr].slots, sl.len, i);
      RewrittenLists(ls, k, Shifted(ls.heap[sl.arr].slots, sl.len, i), sl.len - 1, l);
    }
  }

  /** Every slot after a subscription held its channel before in an array of the same key, or is
      the new channel's, or was copied from the key's list into its new array. */
  lemma SubscribedSlots(ls: Lists, k: Key, ch: Chan, spare: nat, a: nat, j: nat)
    requires Sound(ls)
    requires var h := Subscribed(ls, k, ch, spare).heap; a < |h| && j < |h[a].slots|
    ensures var b := Subscribed(ls, k, ch, spare).heap[a];
            || (a < |ls.heap| && ls.heap[a].owner == b.owner && j < |ls.heap[a].slots|
              && ls.heap[a].slots[j] == b.slots[j])
            || (b.owner == k && (b.slots[j] == ch || b.slots[j] in Listed(ls, k)))
  {
    if !HasSpare(ls, k) && a == |ls.heap| && j < |Listed(ls, k)| {
      assert Subscribed(ls, k, ch, spare).heap[a].slots[j] == Listed(ls, k)[j];
    }
  }

  /** Every slot after an unsubscription holds what it or its neighbour held before. */
  lemma UnsubscribedSlots(ls: Lists, k: Key, ch: Chan, a: nat, j: nat)
    requires Sound(ls)
    requires var h := Unsubscribed(ls, k, ch).heap; a < |h| && j < |h[a].slots|
    ensures var b := Unsubscribed(ls, k, ch).heap[a];
            && a < |ls.heap| && ls.heap[a].owner == b.owner
            && exists i: nat :: i < |ls.heap[a].slots| && ls.heap[a].slots[i] == b.slots[j]
  {
    if ch in Listed(ls, k) && a == ls.subs[k].arr {
      var slots, len, i := ls.heap[a].slots, ls.subs[k].len, IndexOf(Listed(ls, k), ch);
      var from := if i <= j < len - 1 then j + 1 else j;
      assert Shifted(slots, len, i)[j] == slots[from];
    } else {
      assert Unsubscribed(ls, k, ch).heap[a] == ls.heap[a];
      assert ls.heap[a].slots[j] == Unsubscribed(ls, k, ch).heap[a].slots[j];
    }
  }

  lemma ShiftedPrefix(slots: seq<Chan>, len: nat, i: nat)
    requires i < len <= |slots|
    ensures Shifted(slots, len, i)[..len - 1] == Without(slots[..len], i)
  {
  }

  lemma ShiftOneMore(slots: seq<Chan>, i: nat, n: nat)
    requires n > 0 && i + n < |slots|
    ensures var r := Shifted(slots, i + n, i);
            r[i + n - 1 := r[i + n]] == Shifted(slots, i + n + 1, i)
  {
  }

  /** Without duplicates, removing one channel keeps exactly the others. */
  lemma WithoutKeepsOthers(chs: seq<Chan>, i: nat)
    requires Distinct(chs) && i < |chs|
    ensures Distinct(Without(chs, i))
    ensures forall o :: o in Without(chs, i) <==> o in chs && o != chs[i]
  {
    var r := Without(chs, i);
    forall o | o in chs && o != chs[i] ensures o in r {
      var j :| 0 <= j < |chs| && chs[j] == o;
      assert j < i ==> r[j] == o;
      assert j > i ==> r[j - 1] == o;
    }
    forall o | o in r ensures o in chs && o != chs[i] {
      var j :| 0 <= j < |r| && r[j] == o;
      assert j < i ==> chs[j] == o;
      assert j >= i ==> chs[j + 1] == o;
    }
  }

  // ---------------------------------------------------------------- the notifier object

  /** Subscriber lists, and which channels hold a signal or are closed. */
  class Notifier {
    var lists: Lists
    var pending: set<Chan>
    var closed: set<Chan>

    constructor ()
      ensures lists == NoLists && pending == {} && closed == {}
    {
      lists, pending, closed := NoLists, {}, {};
    }

    /** Notify with its fan-out uninterrupted: afterwards every subscriber of the key holds
        a signal, and no other channel's signal changed. */
    method Notify(k: Key)
      modifies this`pending
      ensures pending == old(pending) + (set ch | ch in Listed(lists, k))
    {
      var chs := Listed(lists, k);
      var i := 0;
      while i < |chs|
        invariant 0 <= i <= |chs|
        invariant pending == old(pending) + (set ch | ch in chs[..i])
      {
        pending := pending + {chs[i]};
        assert chs[..i + 1] == chs[..i] + [chs[i]];
        i := i + 1;
      }
      assert chs[..i] == chs;
    }

    /** Afterwards the channel is the last of its key's list; no other list has changed. */
    method Subscribe(k: Key, ch: Chan, spare: nat)
      requires Sound(lists)
      modifies this`lists
      ensures Sound(lists) && lists == Subscribed(old(lists), k, ch, spare)
      ensures Listed(lists, k) == Listed(old(lists), k) + [ch]
      ensures forall l :: l != k ==> Listed(lists, l) == Listed(old(lists), l)
    {
      forall l ensures l != k ==> Listed(Subscribed(lists, k, ch, spare), l) == Listed(lists, l) {
        SubscribedLists(lists, k, ch, spare, l);
      }
      SubscribedLists(lists, k, ch, spare, k);
      lists := Subscribed(lists, k, ch, spare);
    }

    /** The goroutine waiting on the subscriber's context: finds the channel in its list, shifts
        the rest of the backing array down slot by slot, drops an empty list, closes the
        channel. */
    method Unsubscribe(k: Key, ch: Chan)
      requires Sound(lists)
      modifies this
      ensures Sound(lists) && lists == Unsubscribed(old(lists), k, ch)
      ensures closed == old(closed) + {ch} && pending == old(pending)
    {
      UnsubscribedLists(lists, k, ch, k);
      Detach(k, ch);
      closed := closed + {ch};
    }

    method Detach(k: Key, ch: Chan)
      modifies this`lists
      ensures lists == Unsubscribed(old(lists), k, ch)
    {
      var chs := Listed(lists, k);
      var i := Find(chs, ch);
      if i < |chs| {
        Remove(k, i);
      }
    }

    method Remove(k: Key, i: nat)
      requires k in lists.subs && Fits(lists.heap, lists.subs[k]) && i < lists.subs[k].len
      modifies this`lists
      ensures lists == RemovedAt(old(lists), k, i)
    {
      var sl := lists.subs[k];
      var slots := ShiftDown(lists.heap[sl.arr].slots, sl.len, i);
      lists := Rewrite(lists, k, slots, sl.len - 1);
    }

    static method Find(chs: seq<Chan>, ch: Chan) returns (i: nat)
      ensures i < |chs| <==> ch in chs
      ensures i < |chs| ==> i == IndexOf(chs, ch)
    {
      i := 0;
      while i < |chs| && chs[i] != ch
        invariant 0 <= i <= |chs|
        invariant forall j :: 0 <= j < i ==> chs[j] != ch
      {
        i := i + 1;
      }
    }

    static method ShiftDown(slots: seq<Chan>, len: nat, i: nat) returns (r: seq<Chan>)
      requires i < len <= |slots|
      ensures r == Shifted(slots, len, i)
    {
      r := slots;
      assert Shifted(slots, i + 1, i) == slots;
      var j := i;
      while j + 1 < len
        invariant i <= j < len && r == Shifted(slots, j + 1, i)
      {
        ShiftOneMore(slots, i, j + 1 - i);
        r := r[j := r[j + 1]];
        j := j + 1;
      }
    }
  }
}

/**
  One fan-out against everything that may happen to the backing array under it.  Notify takes
  the slice header under the lock, then reads slot after slot and sends to what it read, each a
  step of its own, while removals shift the array slot by slot, subscriptions write behind the
  list, and removed channels are closed.
 */
module FanOut {
  import opened Base
  import opened Notifier

  /** Where a fan-out is: the length of its slice header, the next slot to read, and the channel
      read but not yet sent to. */
  datatype Scan = Scan(limit: nat, cursor: nat, hand: Option<Chan>)

  predicate InSlots(slots: seq<Chan>, sc: Scan, ch: Chan) {
    exists j :: sc.cursor <= j < sc.limit && j < |slots| && slots[j] == ch
  }

  /** The fan-out still has the channel before it. */
  predicate Ahead(slots: seq<Chan>, sc: Scan, ch: Chan) {
    sc.hand == Some(ch) || InSlots(slots, sc, ch)
  }

  /** The backing array, the length of the list in it, the fan-out, and what it has sent to. */
  datatype View = View(
    slots: seq<Chan>, len: nat, scan: Scan, sent: set<Chan>, closed: set<Chan>, panicked: bool)

  datatype Micro =
    | Read | Send         // the fan-out
    | Shift(j: nat)       // a removal copies slot j + 1 to slot j
    | Shrink              // a removal stores the shorter slice
    | Append(ch: Chan)    // a subscription with capacity left
    | Close(ch: Chan)

  function Do(v: View, e: Micro): View {
    if v.panicked then v else
    match e
    case Read =>
      if v.scan.hand == None && v.scan.cursor < v.scan.limit && v.scan.cursor < |v.slots|
      then v.(scan := Scan(v.scan.limit, v.scan.cursor + 1, Some(v.slots[v.scan.cursor]))) else v
    case Send =>
      if v.scan.hand == None then v
      else if v.scan.hand.value in v.closed then v.(panicked := true)
      else v.(scan := v.scan.(hand := None), sent := v.sent + {v.scan.hand.value})
    case Shift(j) =>
      if j + 1 < v.len && j + 1 < |v.slots| then v.(slots := v.slots[j := v.slots[j + 1]]) else v
    case Shrink => if v.len > 0 then v.(len := v.len - 1) else v
    case Append(ch) => if v.len <= |v.slots| then v.(slots := Put(v.slots, v.len, ch), len := v.len + 1) else v
    case Close(ch) => v.(closed := v.closed + {ch})
  }

  function Run(v: View, evs: seq<Micro>): View {
    if evs == [] then v else Do(Run(v, evs[..|evs| - 1]), evs[|evs| - 1])
  }

  /** The header has just been taken. */
  predicate Started(v: View) {
    && v.scan.cursor == 0 && v.scan.hand == None && v.scan.limit == v.len <= |v.slots|
    && v.sent == {} && v.closed == {} && !v.panicked
  }

  predicate Finished(v: View) {
    v.scan.cursor >= v.scan.limit && v.scan.hand == None && !v.panicked
  }

  // ---------------------------------------------------------------- who is missed

  /** The step takes away the last unread slot that held the channel. */
  predicate Overtaken(v: View, e: Micro, ch: Chan) {
    && ch !in v.sent && Ahead(v.slots, v.scan, ch)
    && ch !in Do(v, e).sent && !Ahead(Do(v, e).slots, Do(v, e).scan, ch)
  }

  /** Behind the fan-out's slots the list holds only later subscribers. */
  predicate Tracked(v: View, ch: Chan) {
    v.len <= |v.slots| && forall j :: v.scan.limit <= j < v.len ==> v.slots[j] != ch
  }

  predicate Gone(v: View, ch: Chan) {
    ch !in v.sent && !Ahead(v.slots, v.scan, ch)
  }

  lemma TrackedStep(v: View, e: Micro, ch: Chan)
    requires Tracked(v, ch) && e != Append(ch)
    ensures Tracked(Do(v, e), ch)
  {
  }

  /** A slot that holds the channel before the fan-out after a step held it, or its neighbour
      did, before the step. */
  lemma WasInSlots(v: View, e: Micro, ch: Chan, j: nat)
    requires Tracked(v, ch) && e != Append(ch)
    requires var w := Do(v, e); w.scan.cursor <= j < w.scan.limit && j < |w.slots| && w.slots[j] == ch
    ensures InSlots(v.slots, v.scan, ch)
  {
    var from := if Do(v, e).slots[j] == v.slots[j] then j else j + 1;
    assert v.slots[from] == ch && v.scan.cursor <= from < v.scan.limit;
  }

  /** What the fan-out has lost never comes back before it. */
  lemma GoneStays(v: View, e: Micro, ch: Chan)
    requires Tracked(v, ch) && Gone(v, ch) && e != Append(ch)
    ensures Gone(Do(v, e), ch)
  {
    var w := Do(v, e);
    forall j | w.scan.cursor <= j < w.scan.limit && j < |w.slots| ensures w.slots[j] != ch {
      if w.slots[j] == ch { WasInSlots(v, e, ch, j); }
    }
    GoneUnread(v, e, ch);
  }

  lemma GoneUnread(v: View, e: Micro, ch: Chan)
    requires Gone(v, ch)
    ensures Do(v, e).scan.hand != Some(ch) && ch !in Do(v, e).sent
  {
  }

  predicate OvertakenAt(v: View, evs: seq<Micro>, t: nat, ch: Chan)
    requires t < |evs|
  {
    Overtaken(Run(v, evs[..t]), evs[t], ch)
  }

  lemma OvertakenInPrefix(v: View, evs: seq<Micro>, n: nat, t: nat, ch: Chan)
    requires t < n <= |evs|
    ensures OvertakenAt(v, evs[..n], t, ch) <==> OvertakenAt(v, evs, t, ch)
  {
    assert evs[..n][..t] == evs[..t];
  }

  predicate EverOvertaken(v: View, evs: seq<Micro>, ch: Chan) {
    exists t: nat :: t < |evs| && OvertakenAt(v, evs, t, ch)
  }

  lemma EverStep(v: View, evs: seq<Micro>, ch: Chan)
    requires evs != []
    ensures EverOvertaken(v, evs, ch)
            <==> EverOvertaken(v, evs[..|evs| - 1], ch) || OvertakenAt(v, evs, |evs| - 1, ch)
  {
    var n := |evs| - 1;
    forall t: nat | t < n ensures OvertakenAt(v, evs[..n], t, ch) <==> OvertakenAt(v, evs, t, ch) {
      OvertakenInPrefix(v, evs, n, t, ch);
    }
  }

  lemma GoneStep(v: View, e: Micro, ch: Chan)
    requires Tracked(v, ch) && e != Append(ch)
    ensures Gone(Do(v, e), ch) <==> Gone(v, ch) || Overtaken(v, e, ch)
  {
    SentStays(v, e, ch);
    if Gone(v, ch) {
      GoneStays(v, e, ch);
    }
  }

  /** At every moment the channel is still before the fan-out, sent to, or overtaken. */
  lemma {:induction false} GoneExactly(v: View, evs: seq<Micro>, ch: Chan)
    requires Started(v) && ch in v.slots[..v.len] && Append(ch) !in evs
    ensures Tracked(Run(v, evs), ch)
    ensures Gone(Run(v, evs), ch) <==> EverOvertaken(v, evs, ch)
  {
    if evs == [] {
      var j :| 0 <= j < v.len && v.slots[j] == ch;
      assert InSlots(v.slots, v.scan, ch);
    } else {
      var u, e := Run(v, evs[..|evs| - 1]), evs[|evs| - 1];
      GoneExactly(v, evs[..|evs| - 1], ch);
      TrackedStep(u, e, ch);
      GoneStep(u, e, ch);
      EverStep(v, evs, ch);
    }
  }

  lemma SentStays(v: View, e: Micro, ch: Chan)
    ensures ch in v.sent ==> ch in Do(v, e).sent
  {
  }

  /** For every interleaving: a finished fan-out has missed a subscriber that was listed when
      its header was taken exactly when some step took the last unread slot holding it. */
  lemma MissedExactly(v: View, evs: seq<Micro>, ch: Chan)
    requires Started(v) && ch in v.slots[..v.len] && Append(ch) !in evs && Finished(Run(v, evs))
    ensures ch !in Run(v, evs).sent <==> EverOvertaken(v, evs, ch)
  {
    GoneExactly(v, evs, ch);
  }

  /** Slot j is the only unread one that holds the channel. */
  predicate OnlyUnread(slots: seq<Chan>, sc: Scan, j: nat, ch: Chan) {
    && sc.cursor <= j < sc.limit && j < |slots| && slots[j] == ch
    && forall i :: sc.cursor <= i < sc.limit && i < |slots| && slots[i] == ch ==> i == j
  }

  /** Such a step is a removal's copy into that slot, or a subscription written into it. */
  lemma OvertakenIs(v: View, e: Micro, ch: Chan)
    requires Tracked(v, ch) && e != Append(ch) && !v.panicked
    ensures Overtaken(v, e, ch) <==>
            && ch !in v.sent && v.scan.hand != Some(ch)
            && exists j :: OnlyUnread(v.slots, v.scan, j, ch) && Writes(v, e, j)
                           && (e == Shift(j) ==> v.slots[j + 1] != ch)
  {
    if Overtaken(v, e, ch) {
      var j := OvertakenSlot(v, e, ch);
    }
    if j :| OnlyUnread(v.slots, v.scan, j, ch) && Writes(v, e, j) && (e == Shift(j) ==> v.slots[j + 1] != ch) {
      WrittenIsGone(v, e, ch, j);
    }
  }

  lemma OvertakenSlot(v: View, e: Micro, ch: Chan) returns (j: nat)
    requires Tracked(v, ch) && e != Append(ch) && Overtaken(v, e, ch)
    ensures OnlyUnread(v.slots, v.scan, j, ch) && Writes(v, e, j) && (e == Shift(j) ==> v.slots[j + 1] != ch)
  {
    j :| v.scan.cursor <= j < v.scan.limit && j < |v.slots| && v.slots[j] == ch;
    OvertakenWrites(v, e, ch, j);
    forall i | v.scan.cursor <= i < v.scan.limit && i < |v.slots| && v.slots[i] == ch ensures i == j {
      OvertakenWrites(v, e, ch, i);
    }
  }

  /** The only unread slot written, the fan-out has the channel no more. */
  lemma WrittenIsGone(v: View, e: Micro, ch: Chan, j: nat)
    requires e != Append(ch) && !v.panicked && OnlyUnread(v.slots, v.scan, j, ch) && Writes(v, e, j)
    requires e == Shift(j) ==> v.slots[j + 1] != ch
    ensures InSlots(v.slots, v.scan, ch) && !InSlots(Do(v, e).slots, Do(v, e).scan, ch)
  {
    var w := Do(v, e);
    forall i | w.scan.cursor <= i < w.scan.limit && i < |w.slots| ensures w.slots[i] != ch {
      assert i != j && i < |v.slots| ==> w.slots[i] == v.slots[i];
    }
  }

  /** The step writes slot j. */
  predicate Writes(v: View, e: Micro, j: nat) {
    (e == Shift(j) && j + 1 < v.len <= |v.slots|) || (e.Append? && j == v.len <= |v.slots|)
  }

  lemma OvertakenWrites(v: View, e: Micro, ch: Chan, j: nat)
    requires Tracked(v, ch) && e != Append(ch) && Overtaken(v, e, ch)
    requires v.scan.cursor <= j < v.scan.limit && j < |v.slots| && v.slots[j] == ch
    ensures Writes(v, e, j) && (e == Shift(j) ==> v.slots[j + 1] != ch)
  {
    var w := Do(v, e);
    assert j < |w.slots|;
    assert w.scan.cursor <= j && w.slots[j] == ch ==> InSlots(w.slots, w.scan, ch);
  }

  // ---------------------------------------------------------------- who is hit after its close

  /** Step t sends to the channel in hand, which an earlier step has closed. */
  predicate HitAt(v: View, evs: seq<Micro>, t: nat)
    requires t < |evs|
  {
    var u := Run(v, evs[..t]);
    !u.panicked && evs[t] == Send && u.scan.hand.Some? && Close(u.scan.hand.value) in evs[..t]
  }

  predicate EverHit(v: View, evs: seq<Micro>) {
    exists t: nat :: t < |evs| && HitAt(v, evs, t)
  }

  lemma HitStep(v: View, evs: seq<Micro>)
    requires evs != []
    ensures EverHit(v, evs) <==> EverHit(v, evs[..|evs| - 1]) || HitAt(v, evs, |evs| - 1)
  {
    var n := |evs| - 1;
    forall t: nat | t < n ensures HitAt(v, evs[..n], t) <==> HitAt(v, evs, t) {
      assert evs[..n][..t] == evs[..t];
    }
  }

  lemma {:induction false} ClosedExactly(v: View, evs: seq<Micro>, ch: Chan)
    requires v.closed == {} && !Run(v, evs).panicked
    ensures ch in Run(v, evs).closed <==> Close(ch) in evs
  {
    if evs != [] {
      var n := |evs| - 1;
      assert evs == evs[..n] + [evs[n]];
      ClosedExactly(v, evs[..n], ch);
    }
  }

  lemma PanicStep(v: View, e: Micro)
    ensures Do(v, e).panicked
            <==> v.panicked || (e == Send && v.scan.hand.Some? && v.scan.hand.value in v.closed)
  {
  }

  /** For every interleaving: a fan-out panics exactly when it comes to send to a channel that
      has been closed since its header was taken, whether it was read before the close or after. */
  lemma {:induction false} HitExactly(v: View, evs: seq<Micro>)
    requires Started(v)
    ensures Run(v, evs).panicked <==> EverHit(v, evs)
  {
    if evs != [] {
      var u, e := Run(v, evs[..|evs| - 1]), evs[|evs| - 1];
      HitExactly(v, evs[..|evs| - 1]);
      HitStep(v, evs);
      PanicStep(u, e);
      if !u.panicked && u.scan.hand.Some? {
        ClosedExactly(v, evs[..|evs| - 1], u.scan.hand.value);
      }
    }
  }

  /** A removed channel is closed after it has left the list, and never subscribed again. */
  ghost predicate ClosesUnlisted(v: View, evs: seq<Micro>) {
    forall t: nat :: t < |evs| ==>
      && (evs[t].Close? ==> evs[t].ch !in Listing(Run(v, evs[..t])))
      && (evs[t].Append? ==> evs[t].ch !in Run(v, evs[..t]).closed)
  }

  function Listing(v: View): seq<Chan> {
    if v.len <= |v.slots| then v.slots[..v.len] else []
  }

  ghost predicate ListedOpen(v: View) {
    v.len <= |v.slots| && forall j :: 0 <= j < v.len ==> v.slots[j] !in v.closed
  }

  lemma ListedOpenStep(v: View, e: Micro)
    requires ListedOpen(v)
    requires (e.Close? ==> e.ch !in Listing(v)) && (e.Append? ==> e.ch !in v.closed)
    ensures ListedOpen(Do(v, e))
  {
    if e.Close? {
      assert forall j :: 0 <= j < v.len ==> v.slots[j] in Listing(v);
    }
  }

  /** So a channel that is closed already when the fan-out reads it comes from a stale slot, one
      that the list has shrunk away from; every other hit was read first and closed then. */
  lemma {:induction false} ClosedReadIsStale(v: View, evs: seq<Micro>)
    requires Started(v) && ClosesUnlisted(v, evs)
    ensures ListedOpen(Run(v, evs))
    ensures var u := Run(v, evs);
            u.scan.cursor < |u.slots| && u.slots[u.scan.cursor] in u.closed ==> u.len <= u.scan.cursor
  {
    if evs != [] {
      var n := |evs| - 1;
      assert forall t: nat :: t < n ==> evs[..n][..t] == evs[..t];
      assert ClosesUnlisted(v, evs[..n]);
      ClosedReadIsStale(v, evs[..n]);
      ListedOpenStep(Run(v, evs[..n]), evs[n]);
    }
  }

  // ---------------------------------------------------------------- whole removals

  function Shifts(i: nat, n: nat): seq<Micro> {
    seq(n, k requires 0 <= k < n => Shift(i + k))
  }

  /** The copies of one removal and the shorter slice, nothing in between, are the removal the
      lists are specified by. */
  lemma RemovalIsShifts(v: View, i: nat)
    requires !v.panicked && i < v.len <= |v.slots|
    ensures Run(v, Shifts(i, v.len - 1 - i) + [Shrink])
            == v.(slots := Shifted(v.slots, v.len, i), len := v.len - 1)
  {
    var evs := Shifts(i, v.len - 1 - i) + [Shrink];
    assert evs[..|evs| - 1] == Shifts(i, v.len - 1 - i);
    ShiftsSoFar(v, i, v.len - 1 - i);
    assert Shifted(v.slots, i + (v.len - 1 - i) + 1, i) == Shifted(v.slots, v.len, i);
  }

  lemma {:induction false} ShiftsSoFar(v: View, i: nat, n: nat)
    requires !v.panicked && i + n < v.len <= |v.slots|
    ensures Run(v, Shifts(i, n)) == v.(slots := Shifted(v.slots, i + n + 1, i))
  {
    if n == 0 {
      assert Shifted(v.slots, i + 1, i) == v.slots;
    } else {
      ShiftsSoFar(v, i, n - 1);
      assert Shifts(i, n)[..n - 1] == Shifts(i, n - 1) && Shifts(i, n)[n - 1] == Shift(i + n - 1);
      ShiftOneMore(v.slots, i, n);
    }
  }

  /** A removal of index i from a list of length len takes the channel from the fan-out: its only
      unread slot is written, and the copy of it made by the shift, if any, is behind the cursor. */
  predicate ShiftTakes(slots: seq<Chan>, len: nat, i: nat, sc: Scan, ch: Chan) {
    && sc.hand != Some(ch)
    && exists j :: i <= j < len - 1 && OnlyUnread(slots, sc, j, ch) && (j == i || j == sc.cursor)
  }

  /** ... or brings it: it is listed right behind the fan-out's slots, and moves into the last. */
  predicate ShiftBrings(slots: seq<Chan>, len: nat, i: nat, sc: Scan, ch: Chan) {
    i < sc.limit < len && sc.limit < |slots| && sc.cursor < sc.limit && slots[sc.limit] == ch
  }

  lemma ShiftedAhead(slots: seq<Chan>, len: nat, i: nat, sc: Scan, ch: Chan, j: nat)
    requires i < len <= |slots| && sc.cursor <= j < sc.limit <= |slots|
    requires if i <= j < len - 1 then slots[j + 1] == ch else slots[j] == ch
    ensures Ahead(Shifted(slots, len, i), sc, ch)
  {
    assert Shifted(slots, len, i)[j] == ch;
  }

  /** A whole removal under a fan-out, wherever its slots and the list end: a channel before it is
      taken, and one not before it is brought, exactly in these cases. */
  lemma RemovalSkipsExactly(slots: seq<Chan>, len: nat, i: nat, sc: Scan, ch: Chan)
    requires i < len <= |slots| && sc.limit <= |slots| && Distinct(slots[..len])
    ensures Ahead(slots, sc, ch) ==> (!Ahead(Shifted(slots, len, i), sc, ch) <==> ShiftTakes(slots, len, i, sc, ch))
    ensures !Ahead(slots, sc, ch) ==> (Ahead(Shifted(slots, len, i), sc, ch) <==> ShiftBrings(slots, len, i, sc, ch))
  {
    if sc.hand != Some(ch) {
      if InSlots(slots, sc, ch) {
        RemovalTakes(slots, len, i, sc, ch);
      } else {
        RemovalBrings(slots, len, i, sc, ch);
      }
    }
  }

  lemma ListedOnce(slots: seq<Chan>, len: nat, j: nat, m: nat)
    requires len <= |slots| && Distinct(slots[..len]) && j < len && m < len && j != m
    ensures slots[j] != slots[m]
  {
    assert slots[..len][j] == slots[j] && slots[..len][m] == slots[m];
  }

  lemma RemovalTakes(slots: seq<Chan>, len: nat, i: nat, sc: Scan, ch: Chan)
    requires i < len <= |slots| && sc.limit <= |slots| && Distinct(slots[..len])
    requires sc.hand != Some(ch) && InSlots(slots, sc, ch)
    ensures !Ahead(Shifted(slots, len, i), sc, ch) <==> ShiftTakes(slots, len, i, sc, ch)
  {
    var p: nat :| sc.cursor <= p < sc.limit && p < |slots| && slots[p] == ch;
    if !Ahead(Shifted(slots, len, i), sc, ch) {
      forall m: nat | sc.cursor <= m < sc.limit && m < |slots| && slots[m] == ch
        ensures i <= m < len - 1 && (m == i || m == sc.cursor)
      {
        if m < i || m >= len - 1 { ShiftedAhead(slots, len, i, sc, ch, m); }
        if i < m < len - 1 && m > sc.cursor { ShiftedAhead(slots, len, i, sc, ch, m - 1); }
      }
      forall m: nat | sc.cursor <= m < sc.limit && m < |slots| && slots[m] == ch ensures m == p {
        if m != p { ListedOnce(slots, len, m, p); }
      }
      assert OnlyUnread(slots, sc, p, ch);
    }
    if ShiftTakes(slots, len, i, sc, ch) {
      var j :| i <= j < len - 1 && OnlyUnread(slots, sc, j, ch) && (j == i || j == sc.cursor);
      TakenIsGone(slots, len, i, sc, ch, j);
    }
  }

  lemma TakenIsGone(slots: seq<Chan>, len: nat, i: nat, sc: Scan, ch: Chan, j: nat)
    requires i < len <= |slots| && sc.limit <= |slots| && Distinct(slots[..len])
    requires i <= j < len - 1 && OnlyUnread(slots, sc, j, ch) && (j == i || j == sc.cursor)
    ensures !InSlots(Shifted(slots, len, i), sc, ch)
  {
    var after := Shifted(slots, len, i);
    forall m: nat | sc.cursor <= m < sc.limit && m < |after| ensures after[m] != ch {
      if i <= m < len - 1 {
        if m + 1 != j { ListedOnce(slots, len, m + 1, j); }
        assert after[m] == slots[m + 1];
      } else {
        assert after[m] == slots[m];
      }
    }
  }

  lemma RemovalBrings(slots: seq<Chan>, len: nat, i: nat, sc: Scan, ch: Chan)
    requires i < len <= |slots| && sc.limit <= |slots| && Distinct(slots[..len])
    requires sc.hand != Some(ch) && !InSlots(slots, sc, ch)
    ensures Ahead(Shifted(slots, len, i), sc, ch) <==> ShiftBrings(slots, len, i, sc, ch)
  {
    var after := Shifted(slots, len, i);
    if ShiftBrings(slots, len, i, sc, ch) {
      ShiftedAhead(slots, len, i, sc, ch, sc.limit - 1);
    }
    forall m: nat | sc.cursor <= m < sc.limit && m < |after| && after[m] == ch
      ensures ShiftBrings(slots, len, i, sc, ch)
    {
      assert m + 1 < sc.limit && i <= m < len - 1 ==> slots[m + 1] != ch;
      assert slots[m] != ch;
    }
  }

  /** A subscription written in place behind the list takes a channel from the fan-out exactly when
      its only unread slot is the one written, a stale one; it brings none but its own. */
  lemma AppendSkipsExactly(slots: seq<Chan>, len: nat, sc: Scan, ch: Chan, late: Chan)
    requires len <= |slots| && sc.limit <= |slots| && late != ch
    ensures Ahead(slots, sc, ch) ==>
              (!Ahead(Put(slots, len, late), sc, ch) <==> sc.hand != Some(ch) && OnlyUnread(slots, sc, len, ch))
    ensures !Ahead(slots, sc, ch) ==> !Ahead(Put(slots, len, late), sc, ch)
  {
    var after := Put(slots, len, late);
    forall m: nat | m < |slots| && m != len ensures after[m] == slots[m] {
    }
    if m: nat :| m != len && sc.cursor <= m < sc.limit && m < |slots| && slots[m] == ch {
      assert after[m] == ch;
      assert InSlots(after, sc, ch);
    }
  }
}
