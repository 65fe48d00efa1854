/**
  The two frame loops of the session layer (internal/session/push.go and
  internal/session/receive.go) after their handshakes, over the router and writer objects.
 */
module SessionLoops {
  import opened Base
  import opened FrameCodec
  import opened Inbox
  import opened Router
  import opened Delivery
  import W = SessionWriter
  import L = Limits

  // ---------------------------------------------------------------- Push Sessions

  /** One decrypted frame with the clock readings and store fault its handling meets, whether the
      session's context has ended by then, and whether an Ack can be encrypted and written. */
  datatype PushInput = PushInput(plain: Bytes, clock: L.Clock, wall: int, fault: bool, ended: bool, ackable: bool)

  datatype Reply = AckReply | ErrorReply(reason: Byte)

  /** The frame a reply goes out as. */
  function ReplyFrame(r: Reply): Bytes {
    match r
    case AckReply => FrameBytes(ACK, [])
    case ErrorReply(reason) => FrameBytes(ERROR, [reason])
  }

  /** An Ack is a frame of type 4 without a body, an Error one of type 5 whose body is its code; a
      Push is a frame of type 1. */
  lemma RepliesParse(code: Byte, plain: Bytes)
    ensures Parse(ReplyFrame(AckReply)) == Parsed(4, []) && Parse(ReplyFrame(ErrorReply(code))) == Parsed(5, [code])
    ensures forall body :: PushBody(plain) == Some(body) <==> Parse(plain) == Parsed(1, body)
  {
    ParseOfFrame(ACK, [], []);
    ParseOfFrame(ERROR, [code], []);
    assert FrameBytes(ACK, []) + [] == FrameBytes(ACK, []);
    assert FrameBytes(ERROR, [code]) + [] == FrameBytes(ERROR, [code]);
  }

  /** The body of a frame that is a well-formed Push. */
  function PushBody(plain: Bytes): Option<Bytes> {
    match Parse(plain)
    case Parsed(t, body) => if t == PUSH then Some(body) else None
    case _ => None
  }

  /** The session after some frames.  It is no longer open once a frame made Parse panic, a push
      was refused with the context ended, which is not answered, or an Ack could not be sent;
      `unacked` is the body stored by the push whose Ack that was. */
  datatype Served =
    Served(replies: seq<Reply>, buckets: L.Buckets, table: Table, unacked: seq<Bytes>, open: bool)

  function ServeOne(cfg: Config, sv: Served, f: PushInput): Served {
    if !sv.open then sv
    else if Parse(f.plain).Panic? then sv.(open := false)
    else match PushBody(f.plain)
      case None => sv.(replies := sv.replies + [ErrorReply(REASON_MALFORMED)])
      case Some(body) =>
        Answered(sv.replies, f, body, Push(cfg, sv.buckets, sv.table, body, f.clock, f.wall, f.fault))
  }

  function Answered(replies: seq<Reply>, f: PushInput, body: Bytes, r: PushResult): Served {
    match r.outcome
    case Accepted(_) =>
      if f.ackable then Served(replies + [AckReply], r.buckets, r.table, [], true)
      else Served(replies, r.buckets, r.table, [body], false)
    case Refused(why) =>
      Served(if f.ended then replies else replies + [ErrorReply(Reason(why))], r.buckets, r.table, [], !f.ended)
  }

  function Serve(cfg: Config, buckets: L.Buckets, t: Table, frames: seq<PushInput>): Served {
    if frames == [] then Served([], buckets, t, [], true)
    else ServeOne(cfg, Serve(cfg, buckets, t, frames[..|frames| - 1]), frames[|frames| - 1])
  }

  /** The bodies that were Acked, in order. */
  function AckedBodies(frames: seq<PushInput>, replies: seq<Reply>): seq<Bytes>
    requires |replies| == |frames|
  {
    if frames == [] then []
    else
      var n := |frames| - 1;
      AckedBodies(frames[..n], replies[..n])
      + (if replies[n].AckReply? && PushBody(frames[n].plain).Some? then [PushBody(frames[n].plain).value] else [])
  }

  function Bodies(rows: seq<Row>): (bs: seq<Bytes>)
    ensures |bs| == |rows| && forall i :: 0 <= i < |bs| ==> bs[i] == rows[i].recipient + rows[i].envelope
  {
    seq(|rows|, i requires 0 <= i < |rows| => rows[i].recipient + rows[i].envelope)
  }

  /** The store has t's rows and one more per Acked frame, holding the Acked body, in order; and
      one last one if the Ack that ended the session could not be sent. */
  ghost predicate Accounted(t: Table, frames: seq<PushInput>, sv: Served) {
    && |sv.replies| <= |frames| && |sv.unacked| <= 1
    && (sv.open ==> |sv.replies| == |frames| && sv.unacked == [])
    && (sv.unacked != [] ==>
          |sv.replies| < |frames| && PushBody(frames[|sv.replies|].plain) == Some(sv.unacked[0]))
    && |t.rows| <= |sv.table.rows| && sv.table.rows[..|t.rows|] == t.rows
    && Bodies(sv.table.rows[|t.rows|..]) == AckedBodies(frames[..|sv.replies|], sv.replies) + sv.unacked
  }

  /** One reply per frame while the session is open; the store gains exactly one row per Ack,
      holding the Acked body, in the order of the frames, and nothing for any other frame but one
      whose Ack is lost on the way. */
  lemma {:induction false} AcksAreStored(cfg: Config, buckets: L.Buckets, t: Table, frames: seq<PushInput>)
    ensures Accounted(t, frames, Serve(cfg, buckets, t, frames))
  {
    if frames == [] {
      assert t.rows[|t.rows|..] == [];
    } else {
      var n := |frames| - 1;
      var before := Serve(cfg, buckets, t, frames[..n]);
      AcksAreStored(cfg, buckets, t, frames[..n]);
      ServeOneStores(cfg, before, frames[n]);
      var after := ServeOne(cfg, before, frames[n]);
      if after.open {
        OpenAccounted(t, frames, before, after);
      } else if before.open {
        EndAccounted(t, frames, before, after);
      } else {
        assert frames[..n][..|before.replies|] == frames[..|before.replies|];
      }
    }
  }

  lemma OpenAccounted(t: Table, frames: seq<PushInput>, before: Served, after: Served)
    requires frames != [] && before.open && after.open && after.unacked == []
    requires Accounted(t, frames[..|frames| - 1], before) && AnswersFrame(before, after, frames[|frames| - 1])
    ensures Accounted(t, frames, after)
  {
    var n := |frames| - 1;
    assert frames[..n][..n] == frames[..n] && frames[..n + 1] == frames;
    assert after.replies[..n] == before.replies;
    var acked := AckedBodies(frames[..n], before.replies);
    assert acked + [] == acked;
    if after.replies[n].AckReply? {
      BodiesSnoc(before.table.rows, after.table.rows, |t.rows|);
      assert AckedBodies(frames, after.replies) == acked + [PushBody(frames[n].plain).value];
    }
    assert AckedBodies(frames, after.replies) + [] == AckedBodies(frames, after.replies);
  }

  lemma EndAccounted(t: Table, frames: seq<PushInput>, before: Served, after: Served)
    requires frames != [] && before.open && !after.open
    requires Accounted(t, frames[..|frames| - 1], before) && EndsAt(before, after, frames[|frames| - 1])
    ensures Accounted(t, frames, after)
  {
    var n := |frames| - 1;
    assert frames[..n][..n] == frames[..n];
    var acked := AckedBodies(frames[..n], before.replies);
    assert acked + [] == acked;
    if after.unacked != [] {
      BodiesSnoc(before.table.rows, after.table.rows, |t.rows|);
    }
  }

  lemma BodiesSnoc(rows: seq<Row>, more: seq<Row>, n: nat)
    requires n <= |rows| && |more| == |rows| + 1 && more[..|rows|] == rows
    ensures var row := more[|rows|]; Bodies(more[n..]) == Bodies(rows[n..]) + [row.recipient + row.envelope]
    ensures more[..n] == rows[..n]
  {
    assert more[n..] == rows[n..] + [more[|rows|]];
  }

  /** One more reply: an Ack with the frame's body stored, or an Error with nothing stored. */
  predicate AnswersFrame(before: Served, after: Served, f: PushInput) {
    && |after.replies| == |before.replies| + 1 && after.replies[..|before.replies|] == before.replies
    && if after.replies[|before.replies|].AckReply?
       then PushBody(f.plain).Some? && StoresBody(before.table, after.table, PushBody(f.plain).value)
       else after.table.rows == before.table.rows
  }

  /** The session ends: with nothing stored, or with a body stored whose Ack is not sent. */
  predicate EndsAt(before: Served, after: Served, f: PushInput) {
    && after.replies == before.replies
    && if after.unacked == [] then after.table.rows == before.table.rows
       else PushBody(f.plain) == Some(after.unacked[0]) && after.unacked == [after.unacked[0]]
            && StoresBody(before.table, after.table, after.unacked[0])
  }

  lemma ServeOneStores(cfg: Config, sv: Served, f: PushInput)
    requires sv.open ==> sv.unacked == []
    ensures var after := ServeOne(cfg, sv, f);
            && (!sv.open ==> after == sv)
            && (sv.open && !after.open ==> EndsAt(sv, after, f))
            && (after.open ==> sv.open && AnswersFrame(sv, after, f) && after.unacked == [])
  {
    match PushBody(f.plain)
    case Some(body) =>
      var r := Push(cfg, sv.buckets, sv.table, body, f.clock, f.wall, f.fault);
      PushStores(cfg, sv.buckets, sv.table, body, f);
      AnsweredStores(sv, f, body, r);
    case None =>
  }

  lemma PushStores(cfg: Config, buckets: L.Buckets, t: Table, body: Bytes, f: PushInput)
    ensures var r := Push(cfg, buckets, t, body, f.clock, f.wall, f.fault);
            if r.outcome.Accepted? then StoresBody(t, r.table, body) else r.table == t
  {
    AcceptedMatches(cfg, buckets, t, body, f.clock, f.wall, f.fault);
  }

  lemma AnsweredStores(sv: Served, f: PushInput, body: Bytes, r: PushResult)
    requires PushBody(f.plain) == Some(body)
    requires if r.outcome.Accepted? then StoresBody(sv.table, r.table, body) else r.table == sv.table
    ensures var after := Answered(sv.replies, f, body, r);
            && (!after.open ==> EndsAt(sv, after, f))
            && (after.open ==> AnswersFrame(sv, after, f) && after.unacked == [])
  {
  }

  /** The table gained one row, with this body. */
  predicate StoresBody(t: Table, u: Table, body: Bytes) {
    && u.rows != [] && u.rows[..|u.rows| - 1] == t.rows
    && u.rows[|u.rows| - 1].recipient + u.rows[|u.rows| - 1].envelope == body
  }

  /** What serving one frame does to store and limiter is what the step system's push does; an Ack
      follows a committed push, an Error a declined one, with its reason. */
  lemma ServeIsStep(cfg: Config, s: State, pid: nat, sv: Served, f: PushInput)
    requires pid !in s.pushes && sv.open && sv.unacked == [] && sv.buckets == s.buckets && sv.table == s.table
    ensures var s', after := PushStep(cfg, s, pid, f.plain, f.clock, f.wall, f.fault), ServeOne(cfg, sv, f);
            if Parse(f.plain).Panic? then s' == Restarted(s) && after == sv.(open := false)
            else
              && s'.table == after.table && s'.buckets == after.buckets && pid in s'.pushes
              && (s'.pushes[pid].Committed? <==> after.replies == sv.replies + [AckReply] || after.unacked != [])
              && (s'.pushes[pid].Committed? ==> (after.open <==> f.ackable))
              && (s'.pushes[pid].Declined? ==> (after.open <==> PushBody(f.plain).None? || !f.ended))
              && (s'.pushes[pid].Declined? && after.open ==>
                    after.replies == sv.replies + [ErrorReply(s'.pushes[pid].reason)])
  {
    if PushBody(f.plain).Some? {
      var body := PushBody(f.plain).value;
      var r := Push(cfg, s.buckets, s.table, body, f.clock, f.wall, f.fault);
      PushTakes(cfg, s, pid, f.plain, body, f.clock, f.wall, f.fault);
      AcceptedMatches(cfg, s.buckets, s.table, body, f.clock, f.wall, f.fault);
      AnsweredIsAfter(s, pid, sv, f, body, r);
    } else {
      OtherIsDeclined(cfg, s, pid, f);
      LastReplies(sv.replies, AckReply, ErrorReply(REASON_MALFORMED));
    }
  }

  lemma OtherIsDeclined(cfg: Config, s: State, pid: nat, f: PushInput)
    requires pid !in s.pushes && PushBody(f.plain).None?
    ensures PushStep(cfg, s, pid, f.plain, f.clock, f.wall, f.fault)
            == if Parse(f.plain).Panic? then Restarted(s)
               else s.(pushes := s.pushes[pid := Declined(REASON_MALFORMED)])
  {
  }

  lemma LastReplies(replies: seq<Reply>, a: Reply, b: Reply)
    ensures replies + [a] == replies + [b] <==> a == b
    ensures replies + [a] != replies
  {
    assert (replies + [a])[|replies|] == a && (replies + [b])[|replies|] == b;
    assert |replies + [a]| != |replies|;
  }

  lemma AnsweredIsAfter(s: State, pid: nat, sv: Served, f: PushInput, body: Bytes, r: PushResult)
    requires r.outcome.Refused? ==> r.table == s.table
    ensures var s', after := AfterPush(s, pid, body, r), Answered(sv.replies, f, body, r);
            && s'.table == after.table && s'.buckets == after.buckets && pid in s'.pushes
            && (s'.pushes[pid].Committed? <==> after.replies == sv.replies + [AckReply] || after.unacked != [])
            && (s'.pushes[pid].Committed? ==> (after.open <==> f.ackable))
            && (s'.pushes[pid].Declined? ==> (after.open <==> !f.ended))
            && (s'.pushes[pid].Declined? && after.open ==>
                  after.replies == sv.replies + [ErrorReply(s'.pushes[pid].reason)])
  {
    LastReplies(sv.replies, AckReply, ErrorReply(0));
    if r.outcome.Refused? {
      LastReplies(sv.replies, AckReply, ErrorReply(Reason(r.outcome.why)));
    }
  }

  // ---------------------------------------------------------------- which frames are answered, and how

  /** Limiter and store after these frames, each well-formed Push having been given to the router. */
  function Settled(cfg: Config, buckets: L.Buckets, t: Table, frames: seq<PushInput>): (L.Buckets, Table) {
    if frames == [] then (buckets, t)
    else
      var (b, u) := Settled(cfg, buckets, t, frames[..|frames| - 1]);
      var f := frames[|frames| - 1];
      match PushBody(f.plain)
      case None => (b, u)
      case Some(body) => var r := Push(cfg, b, u, body, f.clock, f.wall, f.fault); (r.buckets, r.table)
  }

  /** What the router makes of frame i, after those before it; nothing of what is no Push. */
  function OutcomeAt(cfg: Config, buckets: L.Buckets, t: Table, frames: seq<PushInput>, i: nat): Option<Outcome>
    requires i < |frames|
  {
    var (b, u) := Settled(cfg, buckets, t, frames[..i]);
    match PushBody(frames[i].plain)
    case None => None
    case Some(body) => Some(Push(cfg, b, u, body, frames[i].clock, frames[i].wall, frames[i].fault).outcome)
  }

  /** The reply to a frame: an Ack to an accepted Push, an Error with its reason to a refused one,
      and a malformed Error to everything else. */
  function ReplyTo(o: Option<Outcome>): Reply {
    match o
    case None => ErrorReply(REASON_MALFORMED)
    case Some(Accepted(_)) => AckReply
    case Some(Refused(why)) => ErrorReply(Reason(why))
  }

  /** Frame i ends a session: Parse panics on it, or it is refused with the context already ended,
      or accepted and its Ack cannot be sent. */
  predicate EndsSession(cfg: Config, buckets: L.Buckets, t: Table, frames: seq<PushInput>, i: nat)
    requires i < |frames|
  {
    var o := OutcomeAt(cfg, buckets, t, frames, i);
    || Parse(frames[i].plain).Panic?
    || (o.Some? && o.value.Refused? && frames[i].ended)
    || (o.Some? && o.value.Accepted? && !frames[i].ackable)
  }

  predicate NoneEnds(cfg: Config, buckets: L.Buckets, t: Table, frames: seq<PushInput>, n: nat)
    requires n <= |frames|
  {
    forall i: nat :: i < n ==> !EndsSession(cfg, buckets, t, frames, i)
  }

  /** The first n frames have been answered, each with its reply. */
  predicate Answers(cfg: Config, buckets: L.Buckets, t: Table, frames: seq<PushInput>, replies: seq<Reply>, n: nat)
    requires n <= |frames|
  {
    |replies| == n && forall i: nat :: i < n ==> replies[i] == ReplyTo(OutcomeAt(cfg, buckets, t, frames, i))
  }

  lemma OutcomeInPrefix(cfg: Config, buckets: L.Buckets, t: Table, frames: seq<PushInput>, n: nat, i: nat)
    requires i < n <= |frames|
    ensures OutcomeAt(cfg, buckets, t, frames[..n], i) == OutcomeAt(cfg, buckets, t, frames, i)
    ensures EndsSession(cfg, buckets, t, frames[..n], i) <==> EndsSession(cfg, buckets, t, frames, i)
  {
    assert frames[..n][..i] == frames[..i];
  }

  lemma ServeOneAnswers(cfg: Config, sv: Served, f: PushInput)
    requires sv.open && sv.unacked == []
    ensures var o := OutcomeAt(cfg, sv.buckets, sv.table, [f], 0);
            var after := ServeOne(cfg, sv, f);
            && (after.open <==> !EndsSession(cfg, sv.buckets, sv.table, [f], 0))
            && after.replies == (if after.open then sv.replies + [ReplyTo(o)] else sv.replies)
            && (after.open ==> after.unacked == []
                               && (after.buckets, after.table) == Settled(cfg, sv.buckets, sv.table, [f]))
  {
    assert [f][..0] == [];
  }

  lemma SettledLast(cfg: Config, buckets: L.Buckets, t: Table, frames: seq<PushInput>)
    requires frames != []
    ensures var n := |frames| - 1;
            var (b, u) := Settled(cfg, buckets, t, frames[..n]);
            && Settled(cfg, buckets, t, frames) == Settled(cfg, b, u, [frames[n]])
            && OutcomeAt(cfg, buckets, t, frames, n) == OutcomeAt(cfg, b, u, [frames[n]], 0)
            && (EndsSession(cfg, buckets, t, frames, n) <==> EndsSession(cfg, b, u, [frames[n]], 0))
  {
    assert [frames[|frames| - 1]][..0] == [];
  }

  /** What is said of the frames before the last one, said of all but the last. */
  lemma AllButLast(cfg: Config, buckets: L.Buckets, t: Table, frames: seq<PushInput>, replies: seq<Reply>)
    requires frames != []
    ensures var n := |frames| - 1;
            && (NoneEnds(cfg, buckets, t, frames[..n], n) <==> NoneEnds(cfg, buckets, t, frames, n))
            && (Answers(cfg, buckets, t, frames[..n], replies, n) <==> Answers(cfg, buckets, t, frames, replies, n))
  {
    var n := |frames| - 1;
    forall i: nat | i < n
      ensures OutcomeAt(cfg, buckets, t, frames[..n], i) == OutcomeAt(cfg, buckets, t, frames, i)
      ensures EndsSession(cfg, buckets, t, frames[..n], i) <==> EndsSession(cfg, buckets, t, frames, i)
    {
      OutcomeInPrefix(cfg, buckets, t, frames, n, i);
    }
  }

  /** One more answer. */
  lemma AnswersSnoc(cfg: Config, buckets: L.Buckets, t: Table, frames: seq<PushInput>, replies: seq<Reply>)
    requires frames != [] && Answers(cfg, buckets, t, frames, replies, |frames| - 1)
    ensures Answers(cfg, buckets, t, frames,
                    replies + [ReplyTo(OutcomeAt(cfg, buckets, t, frames, |frames| - 1))], |frames|)
  {
  }

  lemma LastServed(cfg: Config, buckets: L.Buckets, t: Table, frames: seq<PushInput>)
    requires frames != []
    requires var before := Serve(cfg, buckets, t, frames[..|frames| - 1]);
             && before.open && before.unacked == []
             && (before.buckets, before.table) == Settled(cfg, buckets, t, frames[..|frames| - 1])
    ensures var before, sv := Serve(cfg, buckets, t, frames[..|frames| - 1]), Serve(cfg, buckets, t, frames);
            var o := OutcomeAt(cfg, buckets, t, frames, |frames| - 1);
            && (sv.open <==> !EndsSession(cfg, buckets, t, frames, |frames| - 1))
            && sv.replies == (if sv.open then before.replies + [ReplyTo(o)] else before.replies)
            && (sv.open ==> sv.unacked == [] && (sv.buckets, sv.table) == Settled(cfg, buckets, t, frames))
  {
    SettledLast(cfg, buckets, t, frames);
    ServeOneAnswers(cfg, Serve(cfg, buckets, t, frames[..|frames| - 1]), frames[|frames| - 1]);
  }

  lemma ClosedStays(cfg: Config, sv: Served, f: PushInput)
    requires !sv.open
    ensures ServeOne(cfg, sv, f) == sv
  {
  }

  /** A session is open exactly while no frame has met one of the three reasons to end it; every
      frame before has its reply, and the store and the limiter are those of the pushes alone. */
  lemma {:induction false} OpenExactly(cfg: Config, buckets: L.Buckets, t: Table, frames: seq<PushInput>)
    ensures var sv := Serve(cfg, buckets, t, frames);
            && (sv.open <==> NoneEnds(cfg, buckets, t, frames, |frames|))
            && (sv.open ==> sv.unacked == [] && (sv.buckets, sv.table) == Settled(cfg, buckets, t, frames)
                            && Answers(cfg, buckets, t, frames, sv.replies, |frames|))
  {
    if frames != [] {
      var n := |frames| - 1;
      var before := Serve(cfg, buckets, t, frames[..n]);
      OpenExactly(cfg, buckets, t, frames[..n]);
      AllButLast(cfg, buckets, t, frames, before.replies);
      if before.open {
        LastServed(cfg, buckets, t, frames);
        AnswersSnoc(cfg, buckets, t, frames, before.replies);
      } else {
        ClosedStays(cfg, before, frames[n]);
      }
    }
  }

  /** A session that has ended did so at the first such frame: all frames before it were answered,
      and neither that one nor any after it. */
  lemma {:induction false} EndedExactly(cfg: Config, buckets: L.Buckets, t: Table, frames: seq<PushInput>)
    returns (i: nat)
    requires !Serve(cfg, buckets, t, frames).open
    ensures i < |frames| && NoneEnds(cfg, buckets, t, frames, i) && EndsSession(cfg, buckets, t, frames, i)
    ensures Answers(cfg, buckets, t, frames, Serve(cfg, buckets, t, frames).replies, i)
  {
    var n := |frames| - 1;
    OpenExactly(cfg, buckets, t, frames[..n]);
    var before := Serve(cfg, buckets, t, frames[..n]);
    AllButLast(cfg, buckets, t, frames, before.replies);
    if before.open {
      LastServed(cfg, buckets, t, frames);
      i := n;
    } else {
      ClosedStays(cfg, before, frames[n]);
      i := EndedExactly(cfg, buckets, t, frames[..n]);
      EndedInPrefix(cfg, buckets, t, frames, n, before.replies, i);
    }
  }

  lemma EndedInPrefix(cfg: Config, buckets: L.Buckets, t: Table, frames: seq<PushInput>, n: nat,
                      replies: seq<Reply>, i: nat)
    requires i < n <= |frames|
    requires NoneEnds(cfg, buckets, t, frames[..n], i) && EndsSession(cfg, buckets, t, frames[..n], i)
    requires Answers(cfg, buckets, t, frames[..n], replies, i)
    ensures NoneEnds(cfg, buckets, t, frames, i) && EndsSession(cfg, buckets, t, frames, i)
    ensures Answers(cfg, buckets, t, frames, replies, i)
  {
    forall j: nat | j <= i
      ensures OutcomeAt(cfg, buckets, t, frames[..n], j) == OutcomeAt(cfg, buckets, t, frames, j)
      ensures EndsSession(cfg, buckets, t, frames[..n], j) <==> EndsSession(cfg, buckets, t, frames, j)
    {
      OutcomeInPrefix(cfg, buckets, t, frames, n, j);
    }
  }

  class PushSession {
    const router: Router

    constructor (r: Router)
      ensures router == r
    {
      router := r;
    }

    /** acceptPushSession's loop: the Ack goes out only after the row is stored, and the loop ends
        with the session. */
    method Loop(frames: seq<PushInput>) returns (sv: Served)
      requires router.Ok()
      modifies router.store, router.limiter, router.notifier`pending
      ensures router.Ok()
      ensures sv == Serve(router.cfg, old(router.limiter.buckets), old(router.store.table), frames)
      ensures sv.buckets == router.limiter.buckets && sv.table == router.store.table
    {
      sv := Served([], router.limiter.buckets, router.store.table, [], true);
      var i := 0;
      while i < |frames| && sv.open
        invariant 0 <= i <= |frames| && router.Ok()
        invariant sv == Serve(router.cfg, old(router.limiter.buckets), old(router.store.table), frames[..i])
        invariant sv.buckets == router.limiter.buckets && sv.table == router.store.table
      {
        assert frames[..i + 1][..i] == frames[..i];
        sv := HandleFrame(frames[i], sv);
        i := i + 1;
      }
      EndedStays(router.cfg, old(router.limiter.buckets), old(router.store.table), frames, i);
    }

    /** One frame: answered with an Ack or an Error, or the session ends. */
    method HandleFrame(f: PushInput, sv: Served) returns (after: Served)
      requires router.Ok() && sv.open && sv.buckets == router.limiter.buckets && sv.table == router.store.table
      modifies router.store, router.limiter, router.notifier`pending
      ensures router.Ok() && after == ServeOne(router.cfg, sv, f)
      ensures after.buckets == router.limiter.buckets && after.table == router.store.table
    {
      var parsed := Parse(f.plain);
      if parsed.Panic? {
        return sv.(open := false);
      }
      if parsed.Bad? || parsed.typ != PUSH {
        return sv.(replies := sv.replies + [ErrorReply(REASON_MALFORMED)]);
      }
      var outcome := router.OnPush(parsed.body, f.clock, f.wall, f.fault);
      var buckets, table := router.limiter.buckets, router.store.table;
      if outcome.Refused? {
        if f.ended {
          return Served(sv.replies, buckets, table, [], false);
        }
        return Served(sv.replies + [ErrorReply(Reason(outcome.why))], buckets, table, [], true);
      }
      if !f.ackable {
        return Served(sv.replies, buckets, table, [parsed.body], false);
      }
      return Served(sv.replies + [AckReply], buckets, table, [], true);
    }
  }

  lemma {:induction false} EndedStays(cfg: Config, buckets: L.Buckets, t: Table, frames: seq<PushInput>, n: nat)
    requires n <= |frames|
    requires n == |frames| || !Serve(cfg, buckets, t, frames[..n]).open
    ensures Serve(cfg, buckets, t, frames) == Serve(cfg, buckets, t, frames[..n])
    decreases |frames|
  {
    if n < |frames| {
      var init := frames[..|frames| - 1];
      assert init[..n] == frames[..n];
      if n < |init| {
        EndedStays(cfg, buckets, t, init, n);
      } else {
        assert init[..n] == init;
      }
    } else {
      assert frames[..n] == frames;
    }
  }

  // ---------------------------------------------------------------- Receive Sessions

  /** What one inbound frame does to the session's writer side and to the store. */
  function Dispatched(c: W.Cipher, key: Key, out: W.Out, t: Table, plain: Bytes, fault: bool): Option<(W.Out, Table)> {
    match Parse(plain)
    case Panic => None
    case Bad => Some((W.Step(c, out, W.Complain), t))
    case Parsed(typ, body) =>
      if typ == HEARTBEAT then Some((W.Step(c, out, W.Echo), t))
      else if typ != DELIVER_ACK || DecodeDeliverAck(body).None? then Some((W.Step(c, out, W.Complain), t))
      else if fault then Some((out, t))
      else Some((out, DeleteFor(t, key, [ToI64(DecodeDeliverAck(body).value)])))
  }

  /** The step system's inbound step is this dispatch, a panic being a restart. */
  lemma DispatchIsStep(cfg: Config, s: State, sid: nat, plain: Bytes, fault: bool)
    requires sid in s.sessions && !s.sessions[sid].pc.Acquired?
    ensures var ss := s.sessions[sid];
            InboundStep(cfg, s, sid, plain, fault) ==
            match Dispatched(cfg.cipher, ss.key, ss.out, s.table, plain, fault) {
              case None => Restarted(s)
              case Some((out, t)) => s.(table := t, sessions := s.sessions[sid := ss.(out := out)])
            }
  {
    var ss := s.sessions[sid];
    assert ss.(out := ss.out) == ss && s.sessions[sid := ss] == s.sessions;
  }

  /** What the Device gets for a frame while the reply queue has room, told from the bytes: a
      Heartbeat for a Heartbeat; nothing for a DeliverAck that carries an id, which deletes the
      session's own row of that id unless the store fails; a malformed Error for anything else; and
      a panic exactly where Parse has one. */
  lemma AnsweredInKind(c: W.Cipher, key: Key, out: W.Out, t: Table, plain: Bytes, fault: bool)
    requires |out.queue| < 16
    ensures var d, p := Dispatched(c, key, out, t, plain, fault), Parse(plain);
            && (d.None? <==> p.Panic?)
            && (p.Parsed? && p.typ == 3 ==> W.Replied(out, d.value.0, 3, []) && d.value.1 == t)
            && (p.Parsed? && p.typ == 6 && |p.body| >= 8 ==>
                  && d.value.0 == out && d.value.1.high == t.high
                  && forall r :: r in d.value.1.rows <==>
                       r in t.rows && (fault || !(r.recipient == key && r.id == ToI64(FromU64(p.body[..8])))))
            && (p.Bad? || (p.Parsed? && p.typ != 3 && (p.typ != 6 || |p.body| < 8)) ==>
                  W.Replied(out, d.value.0, 5, [2]) && d.value.1 == t)
  {
    W.RepliesExactly(c, out);
  }

  class ReceiveSession {
    const key: Key
    const writer: W.Writer
    const router: Router

    constructor (k: Key, w: W.Writer, r: Router)
      ensures key == k && writer == w && router == r
    {
      key, writer, router := k, w, r;
    }

    /** The read loop's switch on one frame.  None of its replies waits for the writer. */
    method Dispatch(plain: Bytes, fault: bool) returns (panicked: bool)
      requires router.Ok()
      modifies writer, router.store
      ensures router.Ok()
      ensures var d := Dispatched(writer.cipher, key, old(writer.out), old(router.store.table), plain, fault);
              && (panicked <==> d.None?)
              && (d.Some? ==> (writer.out, router.store.table) == d.value)
              && (d.None? ==> writer.out == old(writer.out) && router.store.table == old(router.store.table))
    {
      var parsed := Parse(plain);
      if parsed.Panic? {
        return true;
      }
      if parsed.Parsed? && parsed.typ == HEARTBEAT {
        writer.TrySendFrame(FrameBytes(HEARTBEAT, []));
      } else if parsed.Parsed? && parsed.typ == DELIVER_ACK && DecodeDeliverAck(parsed.body).Some? {
        if !fault {
          router.store.DeleteForRecipient(key, [ToI64(DecodeDeliverAck(parsed.body).value)]);
        }
      } else {
        writer.TrySendFrame(FrameBytes(ERROR, [REASON_MALFORMED]));
      }
      return false;
    }
  }
}
