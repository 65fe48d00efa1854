/**
  The routing loop's two sides (internal/relay/router.go): what OnPush decides and stores,
  and what one pass of deliverNew sends.
 */
module Router {
  import opened Base
  import opened Inbox
  import opened SessionWriter
  import EnvelopeWire
  import FrameCodec
  import Transport
  import L = Limits
  import C = SessionCap
  import N = Notifier

  datatype Config = Config(
    maxEnvelope: int,    // a non-positive value means the protocol ceiling
    ttl: int,            // nanoseconds
    quota: Limits,
    bucket: L.Params,
    sessionMax: int,
    cipher: Cipher)
  {
    function SizeLimit(): int {
      if maxEnvelope <= 0 then Transport.PROTOCOL_MAX_ENVELOPE else maxEnvelope
    }

    /** What config validation guarantees: operators may only lower the size limit. */
    ghost predicate Ok() {
      maxEnvelope <= Transport.PROTOCOL_MAX_ENVELOPE && Sound(cipher)
    }
  }

  datatype Refusal =
    | BodyTooShort | EnvelopeTooLarge | RecipientMalformed | RecipientMismatch
    | RateLimited | InboxFull | StoreFailed

  /** pushRefusalReason */
  function Reason(why: Refusal): Byte {
    match why
    case EnvelopeTooLarge => FrameCodec.REASON_TOO_LARGE
    case BodyTooShort => FrameCodec.REASON_MALFORMED
    case RecipientMalformed => FrameCodec.REASON_MALFORMED
    case RecipientMismatch => FrameCodec.REASON_MALFORMED
    case InboxFull => FrameCodec.REASON_INBOX_FULL
    case RateLimited => FrameCodec.REASON_RATE_LIMITED
    case StoreFailed => FrameCodec.REASON_INTERNAL
  }

  /** The checks that look at the body alone, in the order OnPush makes them. */
  function Screen(limit: int, body: Bytes): Option<Refusal> {
    if |body| < 32 then Some(BodyTooShort)
    else if |body| - 32 > limit then Some(EnvelopeTooLarge)
    else match EnvelopeWire.Recipient(body[32..])
      case None => Some(RecipientMalformed)
      case Some(k) => if k != body[..32] then Some(RecipientMismatch) else None
  }

  datatype Outcome = Accepted(row: Row) | Refused(why: Refusal)

  datatype PushResult = PushResult(outcome: Outcome, buckets: L.Buckets, table: Table)

  /** OnPush: screen, rate limit, store. */
  function Push(cfg: Config, buckets: L.Buckets, t: Table, body: Bytes,
                clock: L.Clock, wall: int, fault: bool): PushResult {
    match Screen(cfg.SizeLimit(), body)
    case Some(why) => PushResult(Refused(why), buckets, t)
    case None =>
      var key: Key := body[..32];
      var (ok, buckets') := L.Allow(cfg.bucket, buckets, L.Call(key, clock), true);
      if !ok then PushResult(Refused(RateLimited), buckets', t)
      else match Put(t, key, body[32..], Unix(wall + cfg.ttl), cfg.quota, fault)
        case Stored(t', row) => PushResult(Accepted(row), buckets', t')
        case Full => PushResult(Refused(InboxFull), buckets', t)
        case Failed => PushResult(Refused(StoreFailed), buckets', t)
  }

  // ---------------------------------------------------------------- what a push may do

  /** An accepted body is its row's recipient followed by its row's envelope; the envelope
      itself addresses that recipient, within the size limit. */
  predicate RowMatches(cfg: Config, body: Bytes, r: Row) {
    && body == r.recipient + r.envelope
    && EnvelopeWire.Recipient(r.envelope) == Some(r.recipient)
    && |r.envelope| <= cfg.SizeLimit()
  }

  lemma AcceptedMatches(cfg: Config, buckets: L.Buckets, t: Table, body: Bytes, clock: L.Clock, wall: int, fault: bool)
    ensures var r := Push(cfg, buckets, t, body, clock, wall, fault);
            r.outcome.Accepted? ==>
              var row := r.outcome.row;
              && RowMatches(cfg, body, row)
              && row.id == t.high + 1 && row.expiresAt == Unix(wall + cfg.ttl)
              && r.table == Table(t.rows + [row], t.high + 1)
    ensures var r := Push(cfg, buckets, t, body, clock, wall, fault);
            r.outcome.Refused? ==> r.table == t
  {
    if |body| >= 32 {
      assert body == body[..32] + body[32..];
    }
  }

  lemma TemporaryReasons(why: Refusal)
    ensures FrameCodec.Temporary(Reason(why)) <==> why.RateLimited? || why.InboxFull? || why.StoreFailed?
  {
  }

  /** A refusal is permanent (bit 7 clear) exactly when the body alone decides it. */
  lemma PermanentExactly(cfg: Config, buckets: L.Buckets, t: Table, body: Bytes, clock: L.Clock, wall: int, fault: bool)
    ensures var r := Push(cfg, buckets, t, body, clock, wall, fault);
            (r.outcome.Refused? && !FrameCodec.Temporary(Reason(r.outcome.why)))
            <==> Screen(cfg.SizeLimit(), body).Some?
  {
    var r := Push(cfg, buckets, t, body, clock, wall, fault);
    if r.outcome.Refused? {
      TemporaryReasons(r.outcome.why);
    }
  }

  /** The envelope ceiling in force: the protocol's, unless a lower one is configured. */
  predicate WithinCeiling(cfg: Config, size: int) {
    size <= if cfg.maxEnvelope <= 0 then 65482 else cfg.maxEnvelope
  }

  /** A body that no store, clock or limit is needed to refuse. */
  ghost predicate Admissible(cfg: Config, body: Bytes) {
    |body| >= 32 && WithinCeiling(cfg, |body| - 32) && EnvelopeWire.Addresses(body[32..], body[..32])
  }

  /** The first check is passed exactly by bodies that hold a key and an envelope within the
      ceiling which names that key. */
  lemma ScreenExactly(cfg: Config, body: Bytes)
    ensures Screen(cfg.SizeLimit(), body).None? <==> Admissible(cfg, body)
    ensures Screen(cfg.SizeLimit(), body) == Some(BodyTooShort) <==> |body| < 32
    ensures Screen(cfg.SizeLimit(), body) == Some(EnvelopeTooLarge)
            <==> |body| >= 32 && !WithinCeiling(cfg, |body| - 32)
    ensures Screen(cfg.SizeLimit(), body) == Some(RecipientMalformed)
            <==> |body| >= 32 && WithinCeiling(cfg, |body| - 32)
                 && forall k: Key :: !EnvelopeWire.Addresses(body[32..], k)
  {
    if |body| >= 32 {
      forall k: Key ensures EnvelopeWire.Recipient(body[32..]) == Some(k) <==> EnvelopeWire.Addresses(body[32..], k) {
        EnvelopeWire.RecipientIsGrammar(body[32..], k);
      }
    }
  }

  predicate ScreenRefusal(o: Outcome) {
    && o.Refused?
    && (o.why.BodyTooShort? || o.why.EnvelopeTooLarge? || o.why.RecipientMalformed? || o.why.RecipientMismatch?)
  }

  /** An inadmissible body is refused for its shape, costs no token and stores nothing; no other one
      is refused for its shape. */
  lemma AdmissibleExactly(cfg: Config, buckets: L.Buckets, t: Table, body: Bytes, clock: L.Clock, wall: int,
                          fault: bool)
    ensures var r := Push(cfg, buckets, t, body, clock, wall, fault);
            && (ScreenRefusal(r.outcome) <==> !Admissible(cfg, body))
            && (!Admissible(cfg, body) ==> r.buckets == buckets && r.table == t)
  {
    ScreenExactly(cfg, body);
  }

  /** What Push does once the body has been screened. */
  lemma PushScreened(cfg: Config, buckets: L.Buckets, t: Table, body: Bytes, clock: L.Clock, wall: int, fault: bool)
    requires |body| >= 32 && Screen(cfg.SizeLimit(), body).None?
    ensures var r := Push(cfg, buckets, t, body, clock, wall, fault);
            var (ok, charged) := L.Allow(cfg.bucket, buckets, L.Call(body[..32], clock), true);
            var put := Put(t, body[..32], body[32..], Unix(wall + cfg.ttl), cfg.quota, fault);
            && r.buckets == charged
            && r.outcome == if !ok then Refused(RateLimited)
                            else match put {
                              case Stored(_, row) => Accepted(row)
                              case Full => Refused(InboxFull)
                              case Failed => Refused(StoreFailed)
                            }
  {
  }

  /** An admissible body is charged, whatever becomes of it.  It is rate limited exactly when its
      key's bucket does not allow it; one that is allowed is accepted exactly when the store does
      not fail and what the Inbox holds leaves room for it. */
  lemma PushExactly(cfg: Config, buckets: L.Buckets, t: Table, body: Bytes, clock: L.Clock, wall: int, fault: bool)
    requires Admissible(cfg, body) && Valid(t) && t.high < MAX_ID
    ensures var r := Push(cfg, buckets, t, body, clock, wall, fault);
            var (ok, charged) := L.Allow(cfg.bucket, buckets, L.Call(body[..32], clock), true);
            var over := OverQuota(PeekAfter(t, body[..32], 0), body[32..], cfg.quota);
            && r.buckets == charged
            && (r.outcome == Refused(RateLimited) <==> !ok)
            && (r.outcome == Refused(StoreFailed) <==> ok && fault)
            && (r.outcome == Refused(InboxFull) <==> ok && !fault && over)
            && (r.outcome.Accepted? <==> ok && !fault && !over)
  {
    ScreenExactly(cfg, body);
    PushScreened(cfg, buckets, t, body, clock, wall, fault);
    FullExactly(t, body[..32], body[32..], Unix(wall + cfg.ttl), cfg.quota);
  }

  /** The code byte of a refusal: of an inadmissible body by its shape, otherwise by what refused it. */
  ghost function CodeOf(cfg: Config, body: Bytes, allowed: bool, fault: bool): int {
    if |body| < 32 then 0x02
    else if !WithinCeiling(cfg, |body| - 32) then 0x01
    else if !EnvelopeWire.Addresses(body[32..], body[..32]) then 0x02
    else if !allowed then 0x82
    else if fault then 0x84
    else 0x81
  }

  lemma RefusalCode(cfg: Config, buckets: L.Buckets, t: Table, body: Bytes, clock: L.Clock, wall: int, fault: bool)
    requires Valid(t) && t.high < MAX_ID
    ensures var r := Push(cfg, buckets, t, body, clock, wall, fault).outcome;
            r.Refused? ==>
              var allowed := |body| >= 32 && L.Allow(cfg.bucket, buckets, L.Call(body[..32], clock), true).0;
              Reason(r.why) == CodeOf(cfg, body, allowed, fault)
  {
    ScreenExactly(cfg, body);
    if Admissible(cfg, body) {
      PushExactly(cfg, buckets, t, body, clock, wall, fault);
    } else {
      AdmissibleExactly(cfg, buckets, t, body, clock, wall, fault);
    }
  }

  /** A permanently refused body is refused for the same reason in every other state. */
  lemma PermanentForever(cfg: Config, buckets: L.Buckets, t: Table, body: Bytes, clock: L.Clock, wall: int, fault: bool,
                         buckets': L.Buckets, t': Table, clock': L.Clock, wall': int, fault': bool)
    requires var r := Push(cfg, buckets, t, body, clock, wall, fault);
             r.outcome.Refused? && !FrameCodec.Temporary(Reason(r.outcome.why))
    ensures Push(cfg, buckets', t', body, clock', wall', fault').outcome
            == Push(cfg, buckets, t, body, clock, wall, fault).outcome
  {
    PermanentExactly(cfg, buckets, t, body, clock, wall, fault);
  }

  // ---------------------------------------------------------------- the router object

  class Router {
    const cfg: Config
    const store: Store
    const limiter: L.RateLimiter
    const cap: C.Cap
    const notifier: N.Notifier

    ghost predicate Ok()
      reads this, store, limiter, notifier
    {
      store.Ok() && limiter.params == cfg.bucket && N.Sound(notifier.lists)
    }

    constructor (c: Config)
      ensures Ok() && cfg == c && fresh(store) && fresh(limiter) && fresh(cap) && fresh(notifier)
      ensures store.table == Empty && limiter.buckets == map[] && cap.active == map[] && notifier.lists == N.NoLists
    {
      cfg := c;
      store := new Store();
      limiter := new L.RateLimiter(c.bucket);
      cap := new C.Cap(c.sessionMax);
      notifier := new N.Notifier();
    }

    /** The checks of OnPush on the body alone. */
    method ScreenBody(body: Bytes) returns (why: Option<Refusal>)
      ensures why == Screen(cfg.SizeLimit(), body)
    {
      if |body| < 32 {
        return Some(BodyTooShort);
      }
      if |body| - 32 > cfg.SizeLimit() {
        return Some(EnvelopeTooLarge);
      }
      var r := EnvelopeWire.ExtractRecipient(body[32..]);
      if r.Malformed? {
        return Some(RecipientMalformed);
      }
      return if r.key != body[..32] then Some(RecipientMismatch) else None;
    }

    /** OnPush: screen, rate limit, store, notify.  After an accepted push every subscriber of
        its recipient holds a signal; a refused one signals nobody. */
    method OnPush(body: Bytes, clock: L.Clock, wall: int, fault: bool) returns (outcome: Outcome)
      requires Ok()
      modifies store, limiter, notifier`pending
      ensures Ok()
      ensures PushResult(outcome, limiter.buckets, store.table)
              == Push(cfg, old(limiter.buckets), old(store.table), body, clock, wall, fault)
      ensures outcome.Accepted? ==>
                notifier.pending
                == old(notifier.pending) + (set ch | ch in N.Listed(notifier.lists, outcome.row.recipient))
      ensures outcome.Refused? ==> notifier.pending == old(notifier.pending)
      ensures ScreenRefusal(outcome) <==> !Admissible(cfg, body)
      ensures !Admissible(cfg, body) ==> limiter.buckets == old(limiter.buckets) && store.table == old(store.table)
    {
      AdmissibleExactly(cfg, limiter.buckets, store.table, body, clock, wall, fault);
      outcome := Admit(body, clock, wall, fault);
      if outcome.Accepted? {
        notifier.Notify(outcome.row.recipient);
      }
    }

    /** OnPush up to the put. */
    method Admit(body: Bytes, clock: L.Clock, wall: int, fault: bool) returns (outcome: Outcome)
      requires Ok()
      modifies store, limiter
      ensures Ok()
      ensures PushResult(outcome, limiter.buckets, store.table)
              == Push(cfg, old(limiter.buckets), old(store.table), body, clock, wall, fault)
    {
      var why := ScreenBody(body);
      if why.Some? {
        return Refused(why.value);
      }
      var key: Key, envelope := body[..32], body[32..];
      var allowed := limiter.AllowPush(key, clock);
      if !allowed {
        return Refused(RateLimited);
      }
      outcome := StorePush(key, envelope, wall, fault);
    }

    /** The put, and what its result means to the sender. */
    method StorePush(key: Key, envelope: Bytes, wall: int, fault: bool) returns (outcome: Outcome)
      requires Ok()
      modifies store
      ensures Ok()
      ensures (outcome, store.table) ==
              match Put(old(store.table), key, envelope, Unix(wall + cfg.ttl), cfg.quota, fault) {
                case Stored(t, row) => (Accepted(row), t)
                case Full => (Refused(InboxFull), old(store.table))
                case Failed => (Refused(StoreFailed), old(store.table))
              }
    {
      var put := store.PutWithLimits(key, envelope, wall, cfg.ttl, cfg.quota, fault);
      outcome := match put
        case Stored(_, row) => Accepted(row)
        case Full => Refused(InboxFull)
        case Failed => Refused(StoreFailed);
    }

    /** OnReceiveConnect up to the delivery goroutine: a slot, then a subscription.  `fault` is
        a failed Subscribe, which gives the slot back. */
    method OnReceiveConnect(key: Key, ch: N.Chan, spare: nat, fault: bool) returns (connected: bool)
      requires Ok() && C.Counts(cap.active)
      modifies cap, notifier`lists
      ensures Ok() && C.Counts(cap.active)
      ensures connected <==> C.Acquire(cap.max, old(cap.active), key).0 && !fault
      ensures connected ==> cap.active == C.Acquire(cap.max, old(cap.active), key).1
                            && N.Listed(notifier.lists, key) == N.Listed(old(notifier.lists), key) + [ch]
                            && notifier.lists == N.Subscribed(old(notifier.lists), key, ch, spare)
      ensures !connected ==> cap.active == old(cap.active) && notifier.lists == old(notifier.lists)
    {
      connected := cap.TryAcquire(key);
      if !connected {
        return;
      }
      if fault {
        C.ReleaseUndoesAcquire(cap.max, old(cap.active), key);
        cap.GiveBack(key);
        return false;
      }
      notifier.Subscribe(key, ch, spare);
    }

    /** deliverNew: one peek, then sends in order until the context is cancelled, after
        `budget` sends.  The new mark is the id of the last blob sent. */
    method DeliverNew(key: Key, afterID: int, budget: nat, fault: bool) returns (sent: seq<Blob>, last: int)
      requires Ok()
      ensures sent == Pass(store.table, key, afterID, budget, fault)
      ensures last == LastId(sent, afterID)
    {
      sent, last := [], afterID;
      if fault {
        return;
      }
      var blobs := store.Peek(key, afterID);
      var i := 0;
      while i < |blobs| && i < budget
        invariant 0 <= i <= |blobs| && i <= budget
        invariant sent == blobs[..i]
        invariant last == LastId(sent, afterID)
      {
        sent := sent + [blobs[i]];
        last := blobs[i].id;
        i := i + 1;
      }
    }
  }

  function Pass(t: Table, key: Key, afterID: int, budget: nat, fault: bool): seq<Blob> {
    if fault then []
    else
      var blobs := PeekAfter(t, key, afterID);
      blobs[..if budget < |blobs| then budget else |blobs|]
  }

  function LastId(sent: seq<Blob>, otherwise: int): int {
    if sent == [] then otherwise else sent[|sent| - 1].id
  }
}
