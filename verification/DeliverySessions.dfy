/** What every step keeps true of one Receive Session. */
module DeliverySessions {
  import opened Base
  import opened Inbox
  import opened Router
  import opened Delivery
  import W = SessionWriter
  import EnvelopeWire

  function Batch(ss: Session): seq<Blob> {
    if ss.pc.Sending? then ss.pc.batch else []
  }

  /** Everything the session has sent or peeked, in order. */
  function Known(ss: Session): seq<Blob> {
    ss.sent + Batch(ss)
  }

  /** The id up to which the session has looked. */
  function Bound(ss: Session): int {
    LastId(Known(ss), 0)
  }

  /** Ids strictly increase, so each blob is sent at most once. */
  ghost predicate OrderOk(t: Table, ss: Session) {
    && Increasing(Known(ss))
    && (forall b :: b in Known(ss) ==> 0 < b.id <= t.high)
    && ss.lastID == LastId(ss.sent, 0)
    && (ss.pc.Sending? ==> ss.pc.batch != [])
  }

  /** A blob that came from an accepted push to k, byte for byte. */
  predicate FromPush(cfg: Config, accepted: map<int, Bytes>, k: Key, b: Blob) {
    && b.id in accepted
    && accepted[b.id] == k + b.envelope
    && EnvelopeWire.Recipient(b.envelope) == Some(k)
    && |b.envelope| <= cfg.SizeLimit()
  }

  ghost predicate OriginOk(cfg: Config, accepted: map<int, Bytes>, ss: Session) {
    forall b :: b in Known(ss) ==> FromPush(cfg, accepted, ss.key, b)
  }

  /** No row of the key at or below the mark has been passed over. */
  ghost predicate CoverageOk(t: Table, ss: Session) {
    forall r :: r in t.rows && r.recipient == ss.key && r.id <= Bound(ss) ==> r.ToBlob() in Known(ss)
  }

  ghost predicate ChannelOk(c: W.Cipher, ss: Session) {
    && ss.sent == ss.out.taken + ss.channel
    && |ss.channel| <= CHANNEL_CAPACITY
    && W.Ok(c, ss.out)
  }

  ghost predicate SessionOk(cfg: Config, t: Table, accepted: map<int, Bytes>, ss: Session) {
    OrderOk(t, ss) && OriginOk(cfg, accepted, ss) && CoverageOk(t, ss) && ChannelOk(cfg.cipher, ss)
  }

  /** A row as its push left it. */
  predicate RowOk(cfg: Config, accepted: map<int, Bytes>, r: Row) {
    r.id in accepted && RowMatches(cfg, accepted[r.id], r)
  }

  ghost predicate RowsOk(cfg: Config, t: Table, accepted: map<int, Bytes>) {
    && Valid(t)
    && (forall r :: r in t.rows ==> RowOk(cfg, accepted, r))
    && (forall id :: id in accepted ==> id <= t.high)
  }

  // ---------------------------------------------------------------- helpers

  lemma LastIsMax(bs: seq<Blob>, b: Blob)
    requires Increasing(bs) && b in bs
    ensures b.id <= LastId(bs, 0)
  {
    var i :| 0 <= i < |bs| && bs[i] == b;
  }

  lemma IncreasingConcat(s: seq<Blob>, t: seq<Blob>)
    requires Increasing(s) && Increasing(t) && forall b :: b in t ==> LastId(s, 0) < b.id
    ensures Increasing(s + t)
  {
    var st := s + t;
    forall i, j | 0 <= i < j < |st| ensures st[i].id < st[j].id {
      if i < |s| <= j {
        LastIsMax(s, s[i]);
        assert t[j - |s|] in t;
      }
    }
  }

  /** In an increasing sequence, what lies at or below the end of a prefix is in it. */
  lemma PrefixHolds(s: seq<Blob>, t: seq<Blob>, b: Blob)
    requires Increasing(s + t) && b in s + t && 0 < b.id
    ensures b.id <= LastId(s, 0) ==> b in s
  {
    var st := s + t;
    var j :| 0 <= j < |st| && st[j] == b;
    if j < |s| {
      assert s[j] == b;
    } else if s != [] {
      assert st[|s| - 1].id < st[j].id;
    }
  }

  // ---------------------------------------------------------------- what each step does to Known

  lemma PeekKnown(t: Table, ss: Session)
    requires !ss.pc.Sending?
    ensures Known(ss) == ss.sent
    ensures Known(DoPeek(t, ss, true)) == ss.sent + PeekAfter(t, ss.key, ss.lastID)
    ensures Known(DoPeek(t, ss, false)) == ss.sent
  {
    assert ss.sent + [] == ss.sent;
  }

  lemma SendKnown(ss: Session)
    requires ss.pc.Sending? && ss.pc.batch != []
    ensures Known(DoSend(ss)) == Known(ss)
    ensures DoSend(ss).pc.Sending? ==> DoSend(ss).pc.batch != []
    ensures DoSend(ss).lastID == LastId(DoSend(ss).sent, 0)
  {
    var b, rest := ss.pc.batch[0], ss.pc.batch[1..];
    assert ss.pc.batch == [b] + rest;
    assert ss.sent + [b] + rest == ss.sent + ([b] + rest);
    assert ss.sent + [b] + [] == ss.sent + [b];
  }

  // ---------------------------------------------------------------- local events

  /** A session in the middle of its batch sends the next blob exactly while fewer than 256 wait in
      its channel. */
  lemma SendsExactly(c: W.Cipher, t: Table, ss: Session)
    requires ss.pc.Sending? && ss.pc.batch != []
    ensures var ss' := Local(c, t, ss, SendOne);
            if |ss.channel| < 256
            then ss'.channel == ss.channel + [ss.pc.batch[0]] && ss'.sent == ss.sent + [ss.pc.batch[0]]
                 && ss'.lastID == ss.pc.batch[0].id
            else ss' == ss
  {
  }

  lemma PeekOk(cfg: Config, t: Table, accepted: map<int, Bytes>, ss: Session)
    requires SessionOk(cfg, t, accepted, ss) && RowsOk(cfg, t, accepted) && !ss.pc.Sending?
    ensures SessionOk(cfg, t, accepted, DoPeek(t, ss, true))
    ensures AllSeen(t, DoPeek(t, ss, true))
  {
    var ss' := DoPeek(t, ss, true);
    var batch := PeekAfter(t, ss.key, ss.lastID);
    PeekKnown(t, ss);
    PeekExact(t, ss.key, ss.lastID);
    forall b | b in batch ensures ss.lastID < b.id <= t.high && FromPush(cfg, accepted, ss.key, b) {
      var r :| r in t.rows && r.recipient == ss.key && r.id > ss.lastID && r.ToBlob() == b;
      assert RowOk(cfg, accepted, r);
    }
    IncreasingConcat(ss.sent, batch);
    forall r | r in t.rows && r.recipient == ss.key
      ensures r.ToBlob() in Known(ss') && r.id <= Bound(ss')
    {
      if r.id > ss.lastID {
        assert r.ToBlob() in batch;
      }
      LastIsMax(Known(ss'), r.ToBlob());
    }
  }

  /** Every row of the key is at or below the session's mark. */
  ghost predicate AllSeen(t: Table, ss: Session) {
    forall r :: r in t.rows && r.recipient == ss.key ==> r.id <= Bound(ss)
  }

  lemma SendOk(cfg: Config, t: Table, accepted: map<int, Bytes>, ss: Session)
    requires SessionOk(cfg, t, accepted, ss) && ss.pc.Sending? && |ss.channel| < CHANNEL_CAPACITY
    ensures SessionOk(cfg, t, accepted, DoSend(ss))
  {
    SendKnown(ss);
  }

  lemma AbandonOk(cfg: Config, t: Table, accepted: map<int, Bytes>, ss: Session)
    requires SessionOk(cfg, t, accepted, ss) && RowsOk(cfg, t, accepted) && ss.pc.Sending?
    ensures SessionOk(cfg, t, accepted, ss.(pc := Waiting))
  {
    var ss' := ss.(pc := Waiting);
    assert Known(ss') == ss.sent;
    forall i, j | 0 <= i < j < |ss.sent| ensures ss.sent[i].id < ss.sent[j].id {
      assert Known(ss)[i] == ss.sent[i] && Known(ss)[j] == ss.sent[j];
    }
    forall r | r in t.rows && r.recipient == ss.key && r.id <= Bound(ss') ensures r.ToBlob() in ss.sent {
      AbandonCovers(t, ss, r);
    }
  }

  lemma AbandonCovers(t: Table, ss: Session, r: Row)
    requires Valid(t) && OrderOk(t, ss) && CoverageOk(t, ss)
    requires r in t.rows && r.recipient == ss.key && r.id <= LastId(ss.sent, 0)
    ensures r.ToBlob() in ss.sent
  {
    if ss.sent != [] {
      assert ss.sent[|ss.sent| - 1] in Known(ss);
      LastIsMax(Known(ss), ss.sent[|ss.sent| - 1]);
    }
    PrefixHolds(ss.sent, Batch(ss), r.ToBlob());
  }

  /** A step that leaves the stream alone needs to keep the channel only. */
  lemma SameStream(cfg: Config, t: Table, accepted: map<int, Bytes>, ss: Session, ss': Session)
    requires SessionOk(cfg, t, accepted, ss) && ChannelOk(cfg.cipher, ss')
    requires ss'.key == ss.key && ss'.lastID == ss.lastID && ss'.sent == ss.sent && Batch(ss') == Batch(ss)
    requires ss'.pc.Sending? ==> ss.pc.Sending?
    ensures SessionOk(cfg, t, accepted, ss')
  {
    assert Known(ss') == Known(ss);
  }

  lemma TakeOk(cfg: Config, t: Table, accepted: map<int, Bytes>, ss: Session)
    requires cfg.Ok() && SessionOk(cfg, t, accepted, ss) && Valid(t) && ss.channel != [] && W.CanTake(ss.out)
    ensures SessionOk(cfg, t, accepted, Local(cfg.cipher, t, ss, Take))
  {
    HeadDeliverable(cfg, t, accepted, ss);
    ChannelTake(cfg.cipher, ss);
    SameStream(cfg, t, accepted, ss, Local(cfg.cipher, t, ss, Take));
  }

  lemma HeadDeliverable(cfg: Config, t: Table, accepted: map<int, Bytes>, ss: Session)
    requires cfg.Ok() && OrderOk(t, ss) && OriginOk(cfg, accepted, ss) && Valid(t)
    requires ss.channel != [] && ss.sent == ss.out.taken + ss.channel
    ensures W.Deliverable(ss.channel[0])
  {
    TakeSplits(ss.sent, ss.out.taken, ss.channel);
    assert ss.channel[0] in Known(ss);
  }

  lemma ChannelTake(c: W.Cipher, ss: Session)
    requires ChannelOk(c, ss) && ss.channel != [] && W.CanTake(ss.out) && W.Deliverable(ss.channel[0])
    ensures ChannelOk(c, ss.(out := W.Take(ss.out, ss.channel[0]), channel := ss.channel[1..]))
  {
    TakeSplits(ss.sent, ss.out.taken, ss.channel);
    W.TakeOk(c, ss.out, ss.channel[0]);
  }

  lemma TakeSplits(sent: seq<Blob>, taken: seq<Blob>, channel: seq<Blob>)
    requires sent == taken + channel && channel != []
    ensures sent == taken + [channel[0]] + channel[1..] && channel[0] in sent
  {
    assert sent[|taken|] == channel[0];
  }

  /** Every local step of a session keeps its stream, its coverage and its channel. */
  lemma LocalOk(cfg: Config, t: Table, accepted: map<int, Bytes>, ss: Session, e: LocalEvent)
    requires cfg.Ok() && SessionOk(cfg, t, accepted, ss) && RowsOk(cfg, t, accepted)
    ensures SessionOk(cfg, t, accepted, Local(cfg.cipher, t, ss, e))
  {
    var ss' := Local(cfg.cipher, t, ss, e);
    if ss' != ss {
      match e
      case Peek(ok) => if ok { PeekOk(cfg, t, accepted, ss); } else { SameStream(cfg, t, accepted, ss, ss'); }
      case SendOne => SendOk(cfg, t, accepted, ss);
      case Abandon => AbandonOk(cfg, t, accepted, ss);
      case Take => TakeOk(cfg, t, accepted, ss);
      case Output(w) => W.StepOk(cfg.cipher, ss.out, w); SameStream(cfg, t, accepted, ss, ss');
      case _ => SameStream(cfg, t, accepted, ss, ss');
    }
  }

  // ---------------------------------------------------------------- steps of others

  /** Acks and reaps only remove rows. */
  lemma ShrinkOk(cfg: Config, t: Table, u: Table, accepted: map<int, Bytes>, ss: Session)
    requires SessionOk(cfg, t, accepted, ss)
    requires u.high == t.high && forall r :: r in u.rows ==> r in t.rows
    ensures SessionOk(cfg, u, accepted, ss)
  {
  }

  /** A push adds a row above everything any session has looked at. */
  lemma GrowOk(cfg: Config, t: Table, accepted: map<int, Bytes>, row: Row, body: Bytes, ss: Session)
    requires SessionOk(cfg, t, accepted, ss) && RowsOk(cfg, t, accepted) && row.id == t.high + 1
    ensures SessionOk(cfg, Table(t.rows + [row], t.high + 1), accepted[row.id := body], ss)
  {
    var u, log := Table(t.rows + [row], t.high + 1), accepted[row.id := body];
    if Known(ss) != [] {
      assert Known(ss)[|Known(ss)| - 1] in Known(ss);
    }
    assert Bound(ss) <= t.high;
    forall b | b in Known(ss) ensures FromPush(cfg, log, ss.key, b) {
      assert FromPush(cfg, accepted, ss.key, b);
    }
  }

  lemma NewSessionOk(cfg: Config, t: Table, accepted: map<int, Bytes>, k: Key)
    requires Valid(t)
    ensures SessionOk(cfg, t, accepted, NewSession(k))
  {
    W.NewOutOk(cfg.cipher);
  }

  /** Moving between the states outside deliverNew changes nothing a session has sent. */
  lemma MoveOk(cfg: Config, t: Table, accepted: map<int, Bytes>, ss: Session, pc: Pc)
    requires SessionOk(cfg, t, accepted, ss) && !ss.pc.Sending? && !pc.Sending?
    ensures SessionOk(cfg, t, accepted, ss.(pc := pc))
  {
    assert Known(ss.(pc := pc)) == Known(ss);
  }
}
