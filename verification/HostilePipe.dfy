/**
  The delivery pipe of the hostile test build (internal/hostile/engine.go): one session's
  stream with blobs dropped, corrupted, duplicated, reordered, injected and replayed.  Every
  send is a select that the session's context may win.
 */
module HostilePipe {
  import opened Base

  const HISTORY_CAP := 256

  datatype Rules = Rules(drop: bool, corrupt: bool, duplicate: bool, window: int)

  const Honest := Rules(false, false, false, 0)

  datatype Selector = Device(key: Key) | Wildcard

  /** rulesFor: an exact entry wins over the wildcard, which wins over honest delivery. */
  function RulesFor(rules: map<Selector, Rules>, k: Key): Rules {
    if Device(k) in rules then rules[Device(k)]
    else if Wildcard in rules then rules[Wildcard]
    else Honest
  }

  /** Whatever else the table holds: the key's own entry if there is one, also beside a wildcard;
      without one the wildcard's; without either the blob passes as it is. */
  lemma RulesForExactly(rules: map<Selector, Rules>, k: Key)
    ensures Device(k) in rules ==> RulesFor(rules, k) == rules[Device(k)]
    ensures Device(k) !in rules && Wildcard in rules ==> RulesFor(rules, k) == rules[Wildcard]
    ensures Device(k) !in rules && Wildcard !in rules ==>
              forall b :: Processed(RulesFor(rules, k), b) == [b] && RulesFor(rules, k).window <= 1
  {
  }

  // ---------------------------------------------------------------- one blob

  /** corruptCopy: the middle byte is complemented. */
  function Corrupted(b: Blob): Blob {
    var i := |b.envelope| / 2;
    if b.envelope == [] then b else Blob(b.id, b.envelope[i := 255 - b.envelope[i]])
  }

  /** Exactly one byte differs, the id does not, and a second corruption undoes the first. */
  lemma CorruptedOnce(b: Blob)
    requires b.envelope != []
    ensures Corrupted(b).id == b.id && |Corrupted(b).envelope| == |b.envelope|
    ensures forall i :: 0 <= i < |b.envelope| ==>
              (Corrupted(b).envelope[i] != b.envelope[i] <==> i == |b.envelope| / 2)
    ensures Corrupted(Corrupted(b)) == b
  {
  }

  /** What the rules make of one blob, before reordering. */
  function Processed(r: Rules, b: Blob): seq<Blob> {
    if r.drop then []
    else
      var c := if r.corrupt then Corrupted(b) else b;
      if r.duplicate then [c, c] else [c]
  }

  /** Dropped, or once, or twice; each copy the blob itself or the blob with its middle byte
      complemented. */
  lemma ProcessedExactly(r: Rules, b: Blob)
    ensures |Processed(r, b)| == if r.drop then 0 else if r.duplicate then 2 else 1
    ensures forall c :: c in Processed(r, b) ==>
              && c.id == b.id && |c.envelope| == |b.envelope|
              && forall i :: 0 <= i < |b.envelope| ==>
                   c.envelope[i] == if r.corrupt && i == |b.envelope| / 2 then 255 - b.envelope[i] else b.envelope[i]
  {
  }

  function Reverse(s: seq<Blob>): (r: seq<Blob>)
    ensures |r| == |s| && forall i :: 0 <= i < |s| ==> r[i] == s[|s| - 1 - i]
  {
    seq(|s|, i requires 0 <= i < |s| => s[|s| - 1 - i])
  }

  function LastOf(s: seq<Blob>, n: nat): seq<Blob> {
    if |s| > n then s[|s| - n..] else s
  }

  // ---------------------------------------------------------------- the pipe's state

  /** For every attempt to send, by number: whether the select takes the context's branch. */
  type Cuts = nat -> bool

  /** out is everything written to the session; sends is the part of it that was not a replay,
      replays the part that was, lost the blobs the pipe took in and gave up on.  tries counts
      the attempts; a stopped pipe's goroutine has returned. */
  datatype State = State(
    held: seq<Blob>, history: seq<Blob>, out: seq<Blob>, sends: seq<Blob>, replays: seq<Blob>,
    lost: seq<Blob>, tries: nat, stopped: bool)

  const Fresh := State([], [], [], [], [], [], 0, false)

  function Sent(p: State, b: Blob): State {
    p.(out := p.out + [b], sends := p.sends + [b],
      history := LastOf(p.history + [b], HISTORY_CAP), tries := p.tries + 1)
  }

  /** send, whose failure ends the pipe. */
  function Send(cut: Cuts, p: State, b: Blob): State {
    if cut(p.tries) then p.(lost := p.lost + [b], tries := p.tries + 1, stopped := true) else Sent(p, b)
  }

  /** Sends in order up to the first that is cut; the rest is lost. */
  function SendAll(cut: Cuts, p: State, bs: seq<Blob>): State
    decreases |bs|
  {
    if p.stopped then p.(lost := p.lost + bs)
    else if bs == [] then p
    else SendAll(cut, Send(cut, p, bs[0]), bs[1..])
  }

  /** One processed blob goes out, or joins the window, which flushes in reverse when full. */
  function Place(cut: Cuts, p: State, window: int, b: Blob): State {
    if p.stopped then p.(lost := p.lost + [b])
    else if window <= 1 then Send(cut, p, b)
    else if |p.held| + 1 < window then p.(held := p.held + [b])
    else SendAll(cut, p.(held := []), Reverse(p.held + [b]))
  }

  function PlaceAll(cut: Cuts, p: State, window: int, bs: seq<Blob>): State {
    if bs == [] then p else Place(cut, PlaceAll(cut, p, window, bs[..|bs| - 1]), window, bs[|bs| - 1])
  }

  function Emit(cut: Cuts, p: State, r: Rules, b: Blob): State {
    PlaceAll(cut, p, r.window, Processed(r, b))
  }

  /** Replays in order up to the first that is cut. */
  function Resend(cut: Cuts, p: State, bs: seq<Blob>): State
    decreases |bs|
  {
    if p.stopped || bs == [] then p
    else if cut(p.tries) then p.(tries := p.tries + 1, stopped := true)
    else Resend(cut, p.(out := p.out + [bs[0]], replays := p.replays + [bs[0]], tries := p.tries + 1), bs[1..])
  }

  /** The history entries a replay command names: the last `count`, all of them when
      count <= 0. */
  function Again(p: State, count: int): seq<Blob> {
    if count > 0 then LastOf(p.history, count) else p.history
  }

  datatype Event =
    | Arrive(b: Blob, rules: Rules)  // with the rules in force at that moment
    | Inject(b: Blob)
    | ReplayLast(count: int)
    | Ended                          // the loop's own select takes the context's branch

  /** What the pipe's goroutine takes from its channels, with the engine's rule table at that
      moment. */
  datatype Taken =
    | FromRouter(b: Blob, table: map<Selector, Rules>)
    | FromInject(b: Blob)
    | FromReplay(count: int)
    | FromContext

  function Resolved(k: Key, x: Taken): Event {
    match x
    case FromRouter(b, table) => Arrive(b, RulesFor(table, k))
    case FromInject(b) => Inject(b)
    case FromReplay(n) => ReplayLast(n)
    case FromContext => Ended
  }

  function ResolvedAll(k: Key, xs: seq<Taken>): (evs: seq<Event>)
    ensures |evs| == |xs| && forall i :: 0 <= i < |xs| ==> evs[i] == Resolved(k, xs[i])
  {
    seq(|xs|, i requires 0 <= i < |xs| => Resolved(k, xs[i]))
  }

  function Handled(cut: Cuts, p: State, e: Event): State {
    match e
    case Arrive(b, r) => Emit(cut, p, r, b)
    case Inject(b) => Send(cut, p, b)
    case ReplayLast(n) => Resend(cut, p, Again(p, n))
    case Ended => p.(stopped := true)
  }

  /** A goroutine that returns takes what it holds with it. */
  function Dropped(p: State): State {
    if p.stopped then p.(lost := p.lost + p.held, held := []) else p
  }

  function Step(cut: Cuts, p: State, e: Event): State {
    if p.stopped then p else Dropped(Handled(cut, p, e))
  }

  function Run(cut: Cuts, evs: seq<Event>): State {
    if evs == [] then Fresh else Step(cut, Run(cut, evs[..|evs| - 1]), evs[|evs| - 1])
  }

  /** Of the blobs, those whose attempts, numbered from n, are not cut; and those that are. */
  function Kept(cut: Cuts, n: nat, bs: seq<Blob>): seq<Blob>
    decreases |bs|
  {
    if bs == [] then [] else (if cut(n) then [] else [bs[0]]) + Kept(cut, n + 1, bs[1..])
  }

  function CutOff(cut: Cuts, n: nat, bs: seq<Blob>): seq<Blob>
    decreases |bs|
  {
    if bs == [] then [] else (if cut(n) then [bs[0]] else []) + CutOff(cut, n + 1, bs[1..])
  }

  /** The closing flush tries every blob and ignores what happens to each. */
  function Drain(cut: Cuts, p: State, bs: seq<Blob>): State
    decreases |bs|
  {
    if bs == [] then p
    else if cut(p.tries) then Drain(cut, p.(lost := p.lost + [bs[0]], tries := p.tries + 1), bs[1..])
    else Drain(cut, Sent(p, bs[0]), bs[1..])
  }

  /** The router's channel is closed: what is held goes out in reverse, as far as it can. */
  function Close(cut: Cuts, p: State): State {
    if p.stopped then p else Drain(cut, p.(held := []), Reverse(p.held)).(stopped := true)
  }

  /** What an event puts into the pipe, replays aside. */
  function Input(e: Event): seq<Blob> {
    match e
    case Arrive(b, r) => Processed(r, b)
    case Inject(b) => [b]
    case ReplayLast(_) => []
    case Ended => []
  }

  /** The events the goroutine took before it returned. */
  function Took(cut: Cuts, evs: seq<Event>): seq<Event> {
    if evs == [] then []
    else
      var init := evs[..|evs| - 1];
      Took(cut, init) + (if Run(cut, init).stopped then [] else [evs[|evs| - 1]])
  }

  lemma {:induction false} TookAll(cut: Cuts, evs: seq<Event>)
    requires !Run(cut, evs).stopped
    ensures Took(cut, evs) == evs
  {
    if evs != [] {
      TookAll(cut, evs[..|evs| - 1]);
      assert evs == evs[..|evs| - 1] + [evs[|evs| - 1]];
    }
  }

  // ---------------------------------------------------------------- conservation

  lemma {:induction false} ReverseMultiset(s: seq<Blob>)
    ensures multiset(Reverse(s)) == multiset(s)
  {
    if s != [] {
      var init, last := s[..|s| - 1], s[|s| - 1];
      ReverseMultiset(init);
      assert s == init + [last];
      assert Reverse(s) == [last] + Reverse(init);
    }
  }

  lemma MultisetFirst(bs: seq<Blob>)
    requires bs != []
    ensures multiset(bs) == multiset{bs[0]} + multiset(bs[1..])
  {
    assert bs == [bs[0]] + bs[1..];
  }

  lemma MultisetLast(bs: seq<Blob>)
    requires bs != []
    ensures multiset(bs) == multiset(bs[..|bs| - 1]) + multiset{bs[|bs| - 1]}
  {
    assert bs == bs[..|bs| - 1] + [bs[|bs| - 1]];
  }

  /** Sent, held and lost together. */
  function Stock(p: State): multiset<Blob> {
    multiset(p.sends) + multiset(p.held) + multiset(p.lost)
  }

  lemma SendConserves(cut: Cuts, p: State, b: Blob)
    ensures Stock(Send(cut, p, b)) == Stock(p) + multiset{b}
  {
  }

  lemma {:induction false} SendAllConserves(cut: Cuts, p: State, bs: seq<Blob>)
    ensures Stock(SendAll(cut, p, bs)) == Stock(p) + multiset(bs)
    decreases |bs|
  {
    if !p.stopped && bs != [] {
      SendConserves(cut, p, bs[0]);
      SendAllConserves(cut, Send(cut, p, bs[0]), bs[1..]);
      MultisetFirst(bs);
    }
  }

  lemma PlaceConserves(cut: Cuts, p: State, window: int, b: Blob)
    ensures Stock(Place(cut, p, window, b)) == Stock(p) + multiset{b}
  {
    SendConserves(cut, p, b);
    FlushConserves(cut, p, b);
  }

  lemma FlushConserves(cut: Cuts, p: State, b: Blob)
    ensures Stock(SendAll(cut, p.(held := []), Reverse(p.held + [b]))) == Stock(p) + multiset{b}
  {
    SendAllConserves(cut, p.(held := []), Reverse(p.held + [b]));
    ReverseMultiset(p.held + [b]);
  }

  lemma {:induction false} PlaceAllConserves(cut: Cuts, p: State, window: int, bs: seq<Blob>)
    ensures Stock(PlaceAll(cut, p, window, bs)) == Stock(p) + multiset(bs)
  {
    if bs != [] {
      PlaceAllConserves(cut, p, window, bs[..|bs| - 1]);
      PlaceConserves(cut, PlaceAll(cut, p, window, bs[..|bs| - 1]), window, bs[|bs| - 1]);
      MultisetLast(bs);
    }
  }

  lemma {:induction false} ResendConserves(cut: Cuts, p: State, bs: seq<Blob>)
    ensures Stock(Resend(cut, p, bs)) == Stock(p) && Resend(cut, p, bs).history == p.history
    ensures Resend(cut, p, bs).sends == p.sends
    decreases |bs|
  {
    if !p.stopped && bs != [] && !cut(p.tries) {
      ResendConserves(cut, p.(out := p.out + [bs[0]], replays := p.replays + [bs[0]], tries := p.tries + 1), bs[1..]);
    }
  }

  lemma HandledConserves(cut: Cuts, p: State, e: Event)
    ensures Stock(Handled(cut, p, e)) == Stock(p) + multiset(Input(e))
  {
    match e
    case Arrive(b, r) => PlaceAllConserves(cut, p, r.window, Processed(r, b));
    case Inject(b) => SendConserves(cut, p, b);
    case ReplayLast(n) => ResendConserves(cut, p, Again(p, n));
    case Ended =>
  }

  /** Over every input, every change of rules on the way and every choice of sends that are cut,
      what was sent, is held and was lost are together exactly what the rules made of the inputs
      the pipe took, and the injected blobs. */
  lemma {:induction false} Conservation(cut: Cuts, evs: seq<Event>)
    ensures Stock(Run(cut, evs)) == multiset(Collect(Input, Took(cut, evs)))
  {
    if evs != [] {
      var init, e := evs[..|evs| - 1], evs[|evs| - 1];
      Conservation(cut, init);
      if !Run(cut, init).stopped {
        HandledConserves(cut, Run(cut, init), e);
        CollectSnoc(Input, Took(cut, init), e);
      } else {
        assert Took(cut, evs) == Took(cut, init);
      }
    }
  }

  /** A goroutine that has returned holds nothing: what it held is lost. */
  lemma {:induction false} StoppedHoldsNothing(cut: Cuts, evs: seq<Event>)
    requires Run(cut, evs).stopped
    ensures Run(cut, evs).held == []
    ensures multiset(Run(cut, evs).sends) + multiset(Run(cut, evs).lost) == multiset(Collect(Input, Took(cut, evs)))
  {
    Conservation(cut, evs);
    if Run(cut, evs[..|evs| - 1]).stopped {
      StoppedHoldsNothing(cut, evs[..|evs| - 1]);
    }
  }

  /** While no send has been cut nothing is lost. */
  lemma {:induction false} UncutLosesNothing(cut: Cuts, evs: seq<Event>)
    requires !Run(cut, evs).stopped
    ensures Run(cut, evs).lost == []
  {
    if evs != [] {
      var p, e := Run(cut, evs[..|evs| - 1]), evs[|evs| - 1];
      UncutLosesNothing(cut, evs[..|evs| - 1]);
      match e
      case Arrive(b, r) => PlaceAllLoses(cut, p, r.window, Processed(r, b));
      case Inject(b) =>
      case ReplayLast(n) => ResendLoses(cut, p, Again(p, n));
      case Ended =>
    }
  }

  lemma {:induction false} ResendLoses(cut: Cuts, p: State, bs: seq<Blob>)
    ensures Resend(cut, p, bs).lost == p.lost
    decreases |bs|
  {
    if !p.stopped && bs != [] && !cut(p.tries) {
      ResendLoses(cut, p.(out := p.out + [bs[0]], replays := p.replays + [bs[0]], tries := p.tries + 1), bs[1..]);
    }
  }

  lemma {:induction false} SendAllLoses(cut: Cuts, p: State, bs: seq<Blob>)
    ensures p.stopped ==> SendAll(cut, p, bs).stopped
    ensures !SendAll(cut, p, bs).stopped ==> SendAll(cut, p, bs).lost == p.lost
    decreases |bs|
  {
    if !p.stopped && bs != [] {
      SendAllLoses(cut, Send(cut, p, bs[0]), bs[1..]);
    }
  }

  lemma {:induction false} PlaceAllLoses(cut: Cuts, p: State, window: int, bs: seq<Blob>)
    ensures p.stopped ==> PlaceAll(cut, p, window, bs).stopped
    ensures !PlaceAll(cut, p, window, bs).stopped ==> PlaceAll(cut, p, window, bs).lost == p.lost
  {
    if bs != [] {
      var q, b := PlaceAll(cut, p, window, bs[..|bs| - 1]), bs[|bs| - 1];
      PlaceAllLoses(cut, p, window, bs[..|bs| - 1]);
      SendAllLoses(cut, q.(held := []), Reverse(q.held + [b]));
    }
  }

  // ---------------------------------------------------------------- the closing flush

  /** s is t with some elements left out. */
  predicate Subsequence(s: seq<Blob>, t: seq<Blob>) {
    s == [] || (t != [] && ((s[0] == t[0] && Subsequence(s[1..], t[1..])) || Subsequence(s, t[1..])))
  }

  lemma {:induction false} KeptIsSubsequence(cut: Cuts, n: nat, bs: seq<Blob>)
    ensures Subsequence(Kept(cut, n, bs), bs) && |Kept(cut, n, bs)| <= |bs|
    decreases |bs|
  {
    if bs != [] {
      KeptIsSubsequence(cut, n + 1, bs[1..]);
      SubsequenceCons(Kept(cut, n + 1, bs[1..]), bs);
      assert [] + Kept(cut, n + 1, bs[1..]) == Kept(cut, n + 1, bs[1..]);
    }
  }

  lemma SubsequenceCons(s: seq<Blob>, t: seq<Blob>)
    requires t != [] && Subsequence(s, t[1..])
    ensures Subsequence(s, t) && Subsequence([t[0]] + s, t)
  {
    assert ([t[0]] + s)[1..] == s;
  }

  lemma {:induction false} KeptOrCut(cut: Cuts, n: nat, bs: seq<Blob>)
    ensures multiset(Kept(cut, n, bs)) + multiset(CutOff(cut, n, bs)) == multiset(bs)
    decreases |bs|
  {
    if bs != [] {
      KeptOrCut(cut, n + 1, bs[1..]);
      MultisetFirst(bs);
    }
  }

  predicate NoneCut(cut: Cuts, n: nat, m: nat) {
    forall i: nat :: n <= i < n + m ==> !cut(i)
  }

  lemma {:induction false} KeptAllExactly(cut: Cuts, n: nat, bs: seq<Blob>)
    ensures Kept(cut, n, bs) == bs <==> NoneCut(cut, n, |bs|)
    decreases |bs|
  {
    if bs != [] {
      KeptAllExactly(cut, n + 1, bs[1..]);
      KeptIsSubsequence(cut, n + 1, bs[1..]);
      if !cut(n) {
        assert Kept(cut, n, bs)[1..] == Kept(cut, n + 1, bs[1..]);
        assert bs == [bs[0]] + bs[1..];
      }
    }
  }

  lemma {:induction false} DrainKeeps(cut: Cuts, p: State, bs: seq<Blob>)
    ensures var q := Drain(cut, p, bs);
            && q.out == p.out + Kept(cut, p.tries, bs) && q.sends == p.sends + Kept(cut, p.tries, bs)
            && q.lost == p.lost + CutOff(cut, p.tries, bs) && q.held == p.held
    decreases |bs|
  {
    if bs != [] {
      var kept, off := Kept(cut, p.tries + 1, bs[1..]), CutOff(cut, p.tries + 1, bs[1..]);
      if cut(p.tries) {
        DrainKeeps(cut, p.(lost := p.lost + [bs[0]], tries := p.tries + 1), bs[1..]);
        Regroup(p.lost, bs[0], off);
        assert [] + kept == kept;
      } else {
        DrainKeeps(cut, Sent(p, bs[0]), bs[1..]);
        Regroup(p.out, bs[0], kept);
        Regroup(p.sends, bs[0], kept);
        assert [] + off == off;
      }
    }
  }

  lemma Regroup(s: seq<Blob>, b: Blob, t: seq<Blob>)
    ensures s + [b] + t == s + ([b] + t)
  {
  }

  /** Closing: a subsequence of the reversed window goes out, all of it exactly when no attempt
      takes the context's branch; sent and lost are then all that the pipe took. */
  lemma CloseFlushes(cut: Cuts, evs: seq<Event>)
    requires !Run(cut, evs).stopped
    ensures var p, q := Run(cut, evs), Close(cut, Run(cut, evs));
            var kept := Kept(cut, p.tries, Reverse(p.held));
            && q.held == [] && q.out == p.out + kept && Subsequence(kept, Reverse(p.held))
            && (q.out == p.out + Reverse(p.held) <==> NoneCut(cut, p.tries, |p.held|))
            && multiset(q.sends) + multiset(q.lost) == multiset(Collect(Input, evs))
  {
    var p := Run(cut, evs);
    DrainKeeps(cut, p.(held := []), Reverse(p.held));
    KeptIsSubsequence(cut, p.tries, Reverse(p.held));
    KeptAllExactly(cut, p.tries, Reverse(p.held));
    AppendCancels(p.out, Kept(cut, p.tries, Reverse(p.held)), Reverse(p.held));
    CloseAccounts(cut, evs);
  }

  lemma CloseAccounts(cut: Cuts, evs: seq<Event>)
    requires !Run(cut, evs).stopped
    ensures var q := Close(cut, Run(cut, evs));
            multiset(q.sends) + multiset(q.lost) == multiset(Collect(Input, evs))
  {
    var p := Run(cut, evs);
    DrainKeeps(cut, p.(held := []), Reverse(p.held));
    KeptOrCut(cut, p.tries, Reverse(p.held));
    ReverseMultiset(p.held);
    Conservation(cut, evs);
    TookAll(cut, evs);
  }

  lemma AppendCancels(s: seq<Blob>, a: seq<Blob>, b: seq<Blob>)
    ensures s + a == s + b <==> a == b
  {
    assert (s + a)[|s|..] == a && (s + b)[|s|..] == b;
  }

  // ---------------------------------------------------------------- order

  /** How many of m attempts, numbered from n, pass before the first that is cut. */
  function Passed(cut: Cuts, n: nat, m: nat): (k: nat)
    ensures k <= m && (k == m <==> NoneCut(cut, n, m))
    decreases m
  {
    if m == 0 || cut(n) then 0 else Passed(cut, n + 1, m - 1) + 1
  }

  /** A flush sends a prefix, loses the rest, and ends the pipe exactly when it loses any. */
  lemma {:induction false} SendAllPasses(cut: Cuts, p: State, bs: seq<Blob>)
    requires !p.stopped
    ensures var q, k := SendAll(cut, p, bs), Passed(cut, p.tries, |bs|);
            && q.out == p.out + bs[..k] && q.sends == p.sends + bs[..k] && q.lost == p.lost + bs[k..]
            && q.held == p.held && (q.stopped <==> k < |bs|)
    decreases |bs|
  {
    if bs != [] {
      if cut(p.tries) {
        Regroup(p.lost, bs[0], bs[1..]);
        assert bs == [bs[0]] + bs[1..];
      } else {
        SendAllPasses(cut, Sent(p, bs[0]), bs[1..]);
        var k := Passed(cut, p.tries + 1, |bs| - 1);
        assert bs[..k + 1] == [bs[0]] + bs[1..][..k] && bs[k + 1..] == bs[1..][k..];
        Regroup(p.out, bs[0], bs[1..][..k]);
        Regroup(p.sends, bs[0], bs[1..][..k]);
      }
    }
  }

  /** Below a full window blobs only accumulate. */
  lemma {:induction false} Accumulates(cut: Cuts, p: State, window: int, bs: seq<Blob>)
    requires window > 1 && |p.held| + |bs| < window && !p.stopped
    ensures PlaceAll(cut, p, window, bs) == p.(held := p.held + bs)
  {
    if bs == [] {
      assert p.held + [] == p.held;
    } else {
      Accumulates(cut, p, window, bs[..|bs| - 1]);
      assert p.held + bs[..|bs| - 1] + [bs[|bs| - 1]] == p.held + bs;
    }
  }

  /** A window's worth of blobs goes out in the reverse of their arrival, and only when the last
      of them has arrived: all of it exactly when no attempt is cut, else a prefix. */
  lemma WindowReverses(cut: Cuts, p: State, window: int, bs: seq<Blob>)
    requires window > 1 && |p.held| + |bs| == window && bs != [] && !p.stopped
    ensures var q, k := PlaceAll(cut, p, window, bs), Passed(cut, p.tries, window);
            && q.out == p.out + Reverse(p.held + bs)[..k] && q.held == [] && (q.stopped <==> k < window)
            && (k == window <==> NoneCut(cut, p.tries, window))
    ensures PlaceAll(cut, p, window, bs[..|bs| - 1]).out == p.out
  {
    var init, last := bs[..|bs| - 1], bs[|bs| - 1];
    Accumulates(cut, p, window, init);
    var q := PlaceAll(cut, p, window, init);
    assert q.held + [last] == p.held + bs;
    SendAllPasses(cut, q.(held := []), Reverse(q.held + [last]));
  }

  /** A blob that fills the window, or finds one held that rules since made smaller, flushes all that
      is held, itself first. */
  lemma FullWindowFlushes(cut: Cuts, p: State, window: int, b: Blob)
    requires !p.stopped && 1 < window <= |p.held| + 1 && NoneCut(cut, p.tries, |p.held| + 1)
    ensures var q := Place(cut, p, window, b);
            q.out == p.out + [b] + Reverse(p.held) && q.held == [] && !q.stopped
  {
    SendAllPasses(cut, p.(held := []), Reverse(p.held + [b]));
    assert Reverse(p.held + [b]) == [b] + Reverse(p.held);
    assert p.out + ([b] + Reverse(p.held)) == p.out + [b] + Reverse(p.held);
  }

  /** An injected blob goes out at once and as it is, whatever window is held. */
  lemma InjectedVerbatim(cut: Cuts, p: State, b: Blob)
    requires !p.stopped && !cut(p.tries)
    ensures var q := Step(cut, p, Inject(b)); q.out == p.out + [b] && q.held == p.held && !q.stopped
  {
  }

  /** Without a window every blob goes out as processed, at once, up to the first cut. */
  lemma UnheldGoesOut(cut: Cuts, p: State, r: Rules, b: Blob)
    requires !p.stopped && r.window <= 1 && NoneCut(cut, p.tries, |Processed(r, b)|)
    ensures var q := Step(cut, p, Arrive(b, r)); q.out == p.out + Processed(r, b) && q.held == p.held && !q.stopped
  {
    var bs := Processed(r, b);
    if bs != [] {
      PlaceTwice(cut, p, r.window, bs[0]);
      if |bs| == 2 {
        assert bs == [bs[0], bs[0]] && !cut(p.tries + 1);
      } else {
        assert bs == [bs[0]];
      }
    }
  }

  lemma {:induction false} ResendPasses(cut: Cuts, p: State, bs: seq<Blob>)
    requires !p.stopped
    ensures var q, k := Resend(cut, p, bs), Passed(cut, p.tries, |bs|);
            q.out == p.out + bs[..k] && q.held == p.held && (q.stopped <==> k < |bs|)
    decreases |bs|
  {
    if bs != [] && !cut(p.tries) {
      ResendPasses(cut, p.(out := p.out + [bs[0]], replays := p.replays + [bs[0]], tries := p.tries + 1), bs[1..]);
      var k := Passed(cut, p.tries + 1, |bs| - 1);
      assert bs[..k + 1] == [bs[0]] + bs[1..][..k];
      Regroup(p.out, bs[0], bs[1..][..k]);
    }
  }

  /** A replay sends the last `count` blobs of the history again, oldest first, all of it when
      count is not positive or no less than its length, up to the first send that is cut. */
  lemma ReplayExactly(cut: Cuts, p: State, count: int)
    requires !p.stopped
    ensures var h := p.history;
            var again := if 0 < count < |h| then h[|h| - count..] else h;
            var q, k := Step(cut, p, ReplayLast(count)), Passed(cut, p.tries, |again|);
            q.out == p.out + again[..k] && q.history == h && (q.stopped <==> k < |again|)
  {
    ResendPasses(cut, p, Again(p, count));
    ResendConserves(cut, p, Again(p, count));
  }

  // ---------------------------------------------------------------- history

  ghost predicate HistoryOk(p: State) {
    p.history == if |p.sends| > 256 then p.sends[|p.sends| - 256..] else p.sends
  }

  lemma SentHistory(p: State, b: Blob)
    requires HistoryOk(p)
    ensures HistoryOk(Sent(p, b)) && |Sent(p, b).history| <= HISTORY_CAP
  {
    if |p.sends| > HISTORY_CAP {
      assert p.sends + [b] == p.sends[..|p.sends| - HISTORY_CAP] + (p.history + [b]);
    }
  }

  lemma {:induction false} SendAllHistory(cut: Cuts, p: State, bs: seq<Blob>)
    requires HistoryOk(p)
    ensures HistoryOk(SendAll(cut, p, bs))
    decreases |bs|
  {
    if !p.stopped && bs != [] {
      SentHistory(p, bs[0]);
      SendAllHistory(cut, Send(cut, p, bs[0]), bs[1..]);
    }
  }

  lemma {:induction false} PlaceAllHistory(cut: Cuts, p: State, window: int, bs: seq<Blob>)
    requires HistoryOk(p)
    ensures HistoryOk(PlaceAll(cut, p, window, bs))
  {
    if bs != [] {
      var q, last := PlaceAll(cut, p, window, bs[..|bs| - 1]), bs[|bs| - 1];
      PlaceAllHistory(cut, p, window, bs[..|bs| - 1]);
      SentHistory(q, last);
      SendAllHistory(cut, q.(held := []), Reverse(q.held + [last]));
    }
  }

  /** The replay source is always the last 256 blobs sent, replays not counted; so a replay
      repeats what was sent, in the order it was sent. */
  lemma {:induction false} HistoryIsRecent(cut: Cuts, evs: seq<Event>)
    ensures HistoryOk(Run(cut, evs))
  {
    if evs != [] {
      var p, e := Run(cut, evs[..|evs| - 1]), evs[|evs| - 1];
      HistoryIsRecent(cut, evs[..|evs| - 1]);
      match e
      case Arrive(b, r) => PlaceAllHistory(cut, p, r.window, Processed(r, b));
      case Inject(b) => SentHistory(p, b);
      case ReplayLast(n) => ResendConserves(cut, p, Again(p, n));
      case Ended =>
    }
  }

  // ---------------------------------------------------------------- the pipe object

  lemma PlaceTwice(cut: Cuts, p: State, window: int, b: Blob)
    ensures PlaceAll(cut, p, window, [b]) == Place(cut, p, window, b)
    ensures PlaceAll(cut, p, window, [b, b]) == Place(cut, Place(cut, p, window, b), window, b)
  {
    assert [b][..0] == [] && [b, b][..1] == [b];
  }

  class Pipe {
    const key: Key
    const cut: Cuts
    var state: State
    var rules: Rules

    constructor (k: Key, c: Cuts)
      ensures key == k && cut == c && state == Fresh && rules == Honest
    {
      key, cut, state, rules := k, c, Fresh, Honest;
    }

    /** send: reports whether the blob went out.  If it did it is the session's last, and the
        newest of at most 256 in the history; if not, nothing went out. */
    method SendBlob(b: Blob) returns (ok: bool)
      modifies this`state
      ensures state == Send(cut, old(state), b) && ok == !cut(old(state).tries)
      ensures ok ==> state.out == old(state).out + [b] && 0 < |state.history| <= HISTORY_CAP
                     && state.history[|state.history| - 1] == b
      ensures !ok ==> state.out == old(state).out && state.history == old(state).history
    {
      ok := !cut(state.tries);
      if ok {
        var history := state.history + [b];
        if |history| > HISTORY_CAP {
          history := history[|history| - HISTORY_CAP..];
        }
        state := state.(out := state.out + [b], sends := state.sends + [b],
          history := history, tries := state.tries + 1);
      } else {
        state := state.(lost := state.lost + [b], tries := state.tries + 1, stopped := true);
      }
    }

    /** The window goes out from its end to its start, up to the first send that is cut. */
    method Flush(held: seq<Blob>)
      requires !state.stopped
      modifies this`state
      ensures state == SendAll(cut, old(state), Reverse(held))
    {
      ghost var all := Reverse(held);
      var i := |held|;
      assert all[0..] == all;
      while i > 0
        invariant 0 <= i <= |held| && !state.stopped
        invariant SendAll(cut, state, all[|held| - i..]) == SendAll(cut, old(state), all)
      {
        i := i - 1;
        var rest := all[|held| - i - 1..];
        assert rest[0] == held[i] && rest[1..] == all[|held| - i..];
        var ok := SendBlob(held[i]);
        if !ok {
          state := state.(lost := state.lost + Reverse(held[..i]));
          assert Reverse(held[..i]) == all[|held| - i..];
          return;
        }
      }
    }

    /** One blob that the rules have been applied to; returns whether the loop goes on. */
    method PlaceBlob(b: Blob) returns (ok: bool)
      requires !state.stopped
      modifies this`state
      ensures state == Place(cut, old(state), rules.window, b) && ok == !state.stopped
    {
      if rules.window > 1 {
        var held := state.held + [b];
        if |held| >= rules.window {
          state := state.(held := []);
          Flush(held);
        } else {
          state := state.(held := held);
        }
        ok := !state.stopped;
      } else {
        ok := SendBlob(b);
      }
    }

    /** emit: drop, corrupt, duplicate, reorder - in this order. */
    method EmitBlob(b: Blob)
      requires !state.stopped
      modifies this`state
      ensures state == Emit(cut, old(state), rules, b)
    {
      if rules.drop {
        return;
      }
      var c := if rules.corrupt then Corrupted(b) else b;
      PlaceTwice(cut, state, rules.window, c);
      var ok := PlaceBlob(c);
      if rules.duplicate {
        if ok {
          ok := PlaceBlob(c);
        } else {
          state := state.(lost := state.lost + [c]);
        }
      }
    }

    /** replay: history entries from the start index on, oldest first. */
    method ReplayHistory(count: int)
      requires !state.stopped
      modifies this`state
      ensures state == Resend(cut, old(state), Again(old(state), count))
    {
      var start := if count > 0 && |state.history| > count then |state.history| - count else 0;
      var again := state.history[start..];
      var i := 0;
      assert again[0..] == again == Again(state, count);
      while i < |again|
        invariant 0 <= i <= |again| && !state.stopped
        invariant Resend(cut, state, again[i..]) == Resend(cut, old(state), again)
      {
        assert again[i..][1..] == again[i + 1..];
        if cut(state.tries) {
          state := state.(tries := state.tries + 1, stopped := true);
          return;
        }
        state := state.(out := state.out + [again[i]], replays := state.replays + [again[i]], tries := state.tries + 1);
        i := i + 1;
      }
    }

    /** run: routing-loop blobs, injections and replays in the order they come, until a send is
        cut or the context ends; else the flush when the routing loop ends. */
    method RunLoop(xs: seq<Taken>)
      requires state == Fresh
      modifies this
      ensures state == Close(cut, Run(cut, ResolvedAll(key, xs)))
    {
      ghost var evs := ResolvedAll(key, xs);
      var i := 0;
      while i < |xs| && !state.stopped
        invariant 0 <= i <= |xs|
        invariant state == Run(cut, evs[..i])
      {
        assert evs[..i + 1][..i] == evs[..i];
        Handle(xs[i]);
        if state.stopped {
          state := state.(lost := state.lost + state.held, held := []);
        }
        i := i + 1;
      }
      StoppedStays(cut, evs, i);
      assert evs[..|evs|] == evs;
      if !state.stopped {
        FlushRest();
      }
    }

    method Handle(x: Taken)
      requires !state.stopped
      modifies this
      ensures state == Handled(cut, old(state), Resolved(key, x))
    {
      match x
      case FromRouter(b, table) =>
        rules := RulesFor(table, key);
        EmitBlob(b);
      case FromInject(b) => var _ := SendBlob(b);
      case FromReplay(n) => ReplayHistory(n);
      case FromContext => state := state.(stopped := true);
    }

    /** The flush after the input's close: no attempt's failure keeps the next from being made. */
    method FlushRest()
      requires !state.stopped
      modifies this`state
      ensures state == Close(cut, old(state))
    {
      var held := state.held;
      ghost var all := Reverse(held);
      state := state.(held := []);
      ghost var start := state;
      var i := |held|;
      assert all[0..] == all;
      while i > 0
        invariant 0 <= i <= |held|
        invariant Drain(cut, state.(stopped := false), all[|held| - i..]) == Drain(cut, start, all)
      {
        i := i - 1;
        var rest := all[|held| - i - 1..];
        assert rest[0] == held[i] && rest[1..] == all[|held| - i..];
        var _ := SendBlob(held[i]);
      }
      state := state.(stopped := true);
    }
  }

  lemma {:induction false} StoppedStays(cut: Cuts, evs: seq<Event>, n: nat)
    requires n <= |evs|
    ensures n == |evs| || Run(cut, evs[..n]).stopped ==> Run(cut, evs) == Run(cut, evs[..n])
    decreases |evs|
  {
    if n < |evs| {
      StoppedStays(cut, evs[..|evs| - 1], n);
      assert evs[..|evs| - 1][..n] == evs[..n];
    } else {
      assert evs[..n] == evs;
    }
  }
}
