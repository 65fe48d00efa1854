/**
  Frames and their bodies (internal/session/frame.go) in fixed-width arithmetic, and the
  length-prefixed Noise transport under them (internal/session/transport.go).
 */
module FrameCodec {
  import opened Base

  const TWO16 := 0x1_0000
  const TWO32 := 0x1_0000_0000
  const TWO63 := 0x8000_0000_0000_0000

  const PUSH: Byte := 1
  const DELIVER: Byte := 2
  const HEARTBEAT: Byte := 3
  const ACK: Byte := 4
  const ERROR: Byte := 5
  const DELIVER_ACK: Byte := 6

  predicate KnownType(t: Byte) {
    t == PUSH || t == DELIVER || t == HEARTBEAT || t == ACK || t == ERROR || t == DELIVER_ACK
  }

  // ---------------------------------------------------------------- big-endian integers

  function U16(n: int): (b: Bytes)
    requires 0 <= n < TWO16
    ensures |b| == 2
  {
    [n / 256, n % 256]
  }

  function FromU16(b: Bytes): (n: nat)
    requires |b| == 2
    ensures n < TWO16
  {
    (b[0] as int) * 256 + b[1]
  }

  function U32(n: int): (b: Bytes)
    requires 0 <= n < TWO32
    ensures |b| == 4
  {
    U16(n / TWO16) + U16(n % TWO16)
  }

  function FromU32(b: Bytes): (n: nat)
    requires |b| == 4
    ensures n < TWO32
  {
    FromU16(b[..2]) * TWO16 + FromU16(b[2..])
  }

  function U64(n: int): (b: Bytes)
    requires 0 <= n < TWO64
    ensures |b| == 8
  {
    U32(n / TWO32) + U32(n % TWO32)
  }

  function FromU64(b: Bytes): (n: nat)
    requires |b| == 8
    ensures n < TWO64
  {
    FromU32(b[..4]) * TWO32 + FromU32(b[4..])
  }

  lemma U16RoundTrip(n: int)
    requires 0 <= n < TWO16
    ensures FromU16(U16(n)) == n
  {
  }

  lemma U32RoundTrip(n: int)
    requires 0 <= n < TWO32
    ensures FromU32(U32(n)) == n
  {
    var hi, lo := U16(n / TWO16), U16(n % TWO16);
    assert (hi + lo)[..2] == hi && (hi + lo)[2..] == lo;
  }

  lemma U64RoundTrip(n: int)
    requires 0 <= n < TWO64
    ensures FromU64(U64(n)) == n
  {
    var hi, lo := U32(n / TWO32), U32(n % TWO32);
    assert (hi + lo)[..4] == hi && (hi + lo)[4..] == lo;
    U32RoundTrip(n / TWO32);
    U32RoundTrip(n % TWO32);
  }

  /** Each byte of the 32-bit encoding is a shift and a truncation. */
  lemma U32Bytes(n: int)
    requires 0 <= n < TWO32
    ensures U32(n) == [n / 0x100_0000 % 256, n / 0x1_0000 % 256, n / 0x100 % 256, n % 256]
  {
    var hi, lo := n / TWO16, n % TWO16;
    U32HighHalf(n, hi, lo);
    U32LowHalf(n, hi, lo);
  }

  lemma U32HighHalf(n: int, hi: int, lo: int)
    requires 0 <= lo < TWO16 && 0 <= hi < TWO16 && n == hi * TWO16 + lo
    ensures n / 0x100_0000 % 256 == hi / 256 && n / 0x1_0000 % 256 == hi % 256
  {
    assert n == (hi / 256) * 0x100_0000 + ((hi % 256) * TWO16 + lo);
    assert n / 0x100_0000 == hi / 256;
    assert n / 0x1_0000 == hi;
  }

  lemma U32LowHalf(n: int, hi: int, lo: int)
    requires 0 <= lo < TWO16 && 0 <= hi < TWO16 && n == hi * TWO16 + lo
    ensures n / 0x100 % 256 == lo / 256 && n % 256 == lo % 256
  {
    assert n == (hi * 256 + lo / 256) * 256 + lo % 256;
    assert n / 0x100 == hi * 256 + lo / 256;
    DropMultiple(hi, lo / 256);
    DropMultiple(hi * 256, lo);
  }

  lemma HighByte(n: int, d: int)
    requires n >= 0 && d in {0x100_0000, 0x1_0000, 0x100, 1}
    ensures n / TWO32 / d == n / (TWO32 * d)
  {
    var hi, lo := n / TWO32, n % TWO32;
    if d == 0x100_0000 {
      assert n == (hi / 0x100_0000) * (TWO32 * 0x100_0000) + (hi % 0x100_0000) * TWO32 + lo;
    } else if d == 0x1_0000 {
      assert n == (hi / 0x1_0000) * (TWO32 * 0x1_0000) + (hi % 0x1_0000) * TWO32 + lo;
    } else if d == 0x100 {
      assert n == (hi / 0x100) * (TWO32 * 0x100) + (hi % 0x100) * TWO32 + lo;
    }
  }

  lemma LowByte(n: int, d: int)
    requires n >= 0 && d in {0x100_0000, 0x1_0000, 0x100, 1}
    ensures n % TWO32 / d % 256 == n / d % 256
  {
    var hi, lo := n / TWO32, n % TWO32;
    if d == 0x100_0000 {
      assert n / d == hi * 0x100 + lo / d;
      DropMultiple(hi, lo / d);
    } else if d == 0x1_0000 {
      assert n / d == (hi * 0x100) * 0x100 + lo / d;
      DropMultiple(hi * 0x100, lo / d);
    } else if d == 0x100 {
      assert n / d == (hi * 0x1_0000) * 0x100 + lo / d;
      DropMultiple(hi * 0x1_0000, lo / d);
    } else {
      assert n == (hi * 0x100_0000) * 0x100 + lo;
      DropMultiple(hi * 0x100_0000, lo);
    }
  }

  lemma DropMultiple(x: int, y: int)
    ensures (x * 256 + y) % 256 == y % 256
  {
  }

  lemma U64Bytes(n: int)
    requires 0 <= n < TWO64
    ensures U64(n) == [n / 0x100_0000_0000_0000 % 256, n / 0x1_0000_0000_0000 % 256,
                       n / 0x100_0000_0000 % 256, n / 0x1_0000_0000 % 256,
                       n / 0x100_0000 % 256, n / 0x1_0000 % 256, n / 0x100 % 256, n % 256]
  {
    var hi, lo := n / TWO32, n % TWO32;
    assert U32(hi) == [hi / 0x100_0000 % 256, hi / 0x1_0000 % 256, hi / 0x100 % 256, hi % 256] by {
      U32Bytes(hi);
    }
    assert U32(lo) == [lo / 0x100_0000 % 256, lo / 0x1_0000 % 256, lo / 0x100 % 256, lo % 256] by {
      U32Bytes(lo);
    }
    HighByte(n, 0x100_0000); HighByte(n, 0x1_0000); HighByte(n, 0x100);
    LowByte(n, 0x100_0000); LowByte(n, 0x1_0000); LowByte(n, 0x100); LowByte(n, 1);
  }

  // ---------------------------------------------------------------- frames

  function FrameBytes(t: Byte, body: Bytes): (raw: Bytes)
    ensures |raw| == 5 + |body|
  {
    [t] + U32(|body| % TWO32) + body
  }

  /** The result of Parse; a slice expression whose bounds cross panics in the source. */
  datatype Parsed = Parsed(typ: Byte, body: Bytes) | Bad | Panic

  function DeclaredLength(raw: Bytes): (l: nat)
    requires |raw| >= 5
    ensures l < TWO32
  {
    FromU32(raw[1..5])
  }

  function Parse(raw: Bytes): Parsed {
    if |raw| < 5 || !KnownType(raw[0]) then Bad else
    var end := (5 + DeclaredLength(raw)) % TWO32;
    if |raw| % TWO32 < end then Bad
    else if end < 5 then Panic
    else Parsed(raw[0], raw[5..end])
  }

  /** The slice in Parse is well-formed exactly for declared lengths up to 2^32 - 6. */
  lemma ParseSlice(raw: Bytes)
    requires |raw| < TWO32
    ensures Parse(raw).Panic? <==> |raw| >= 5 && KnownType(raw[0]) && DeclaredLength(raw) > TWO32 - 6
  {
  }

  function BigEndian(a: int, b: int, c: int, d: int): int {
    a * 0x100_0000 + b * 0x1_0000 + c * 0x100 + d
  }

  /** The length field, as the four bytes it is made of. */
  lemma DeclaredIsBytes(raw: Bytes)
    requires |raw| >= 5
    ensures DeclaredLength(raw) == BigEndian(raw[1], raw[2], raw[3], raw[4])
  {
    var l := raw[1..5];
    assert l[..2] == [raw[1], raw[2]] && l[2..] == [raw[3], raw[4]];
  }

  /** A buffer parses exactly if it holds a header of one of the six types and the body that its
      big-endian length declares; then as that type and that body. */
  lemma ParseExactly(raw: Bytes)
    requires |raw| < 0x1_0000_0000
    ensures var l := if |raw| < 5 then 0
                     else BigEndian(raw[1], raw[2], raw[3], raw[4]);
            && (Parse(raw).Parsed? <==> |raw| >= 5 && 1 <= raw[0] <= 6 && 5 + l <= |raw|)
            && (Parse(raw).Parsed? ==> Parse(raw) == Parsed(raw[0], raw[5..5 + l]))
  {
    if |raw| >= 5 {
      DeclaredIsBytes(raw);
      SliceEnd(DeclaredLength(raw));
    }
  }

  /** Where the slice ends, with and without wrap-around. */
  lemma SliceEnd(l: nat)
    requires l < TWO32
    ensures (5 + l) % TWO32 == if l <= TWO32 - 6 then 5 + l else 5 + l - TWO32
  {
  }

  /** The shortest such frame: a Push header that declares 2^32 - 1 bytes. */
  const PANIC_FRAME: Bytes := [PUSH, 255, 255, 255, 255]

  lemma PanicFramePanics()
    ensures Parse(PANIC_FRAME) == Panic
  {
    assert PANIC_FRAME[1..5] == U32(TWO32 - 1);
    U32RoundTrip(TWO32 - 1);
  }

  /** A framed message is read back, with whatever follows it ignored, exactly when the
      buffer's length does not wrap below the frame's. */
  lemma ParseOfFrame(t: Byte, body: Bytes, tail: Bytes)
    requires KnownType(t) && 5 + |body| < TWO32
    ensures Parse(FrameBytes(t, body) + tail) == Parsed(t, body)
            <==> (5 + |body| + |tail|) % TWO32 >= 5 + |body|
  {
    var raw := FrameBytes(t, body) + tail;
    assert raw[1..5] == U32(|body|);
    U32RoundTrip(|body|);
    assert raw[5..5 + |body|] == body;
  }

  /** What parses is the frame it prints to, up to ignored trailing bytes. */
  lemma FrameOfParse(raw: Bytes)
    requires Parse(raw).Parsed?
    ensures var p := Parse(raw);
            KnownType(p.typ) && FrameBytes(p.typ, p.body) == raw[..5 + |p.body|]
  {
    var n := ParsedLength(raw);
    HeaderThenBody(raw, n);
  }

  lemma HeaderThenBody(raw: Bytes, n: nat)
    requires 5 + n <= |raw| && n == DeclaredLength(raw)
    ensures FrameBytes(raw[0], raw[5..5 + n]) == raw[..5 + n]
  {
    FromU32Inverse(raw[1..5]);
    assert |raw[5..5 + n]| % TWO32 == n;
    assert FrameBytes(raw[0], raw[5..5 + n]) == [raw[0]] + raw[1..5] + raw[5..5 + n];
    SplitHeader(raw, n);
  }

  /** What a parsed frame's header and slice are. */
  lemma ParsedLength(raw: Bytes) returns (n: nat)
    requires Parse(raw).Parsed?
    ensures n == DeclaredLength(raw) && n < TWO32 && 5 + n <= |raw|
    ensures Parse(raw) == Parsed(raw[0], raw[5..5 + n]) && KnownType(raw[0])
  {
    n := DeclaredLength(raw);
    SliceEnd(n);
  }

  lemma SplitHeader(raw: Bytes, n: nat)
    requires 5 + n <= |raw|
    ensures raw[..5 + n] == [raw[0]] + raw[1..5] + raw[5..5 + n]
  {
  }

  lemma FromU32Inverse(b: Bytes)
    requires |b| == 4
    ensures U32(FromU32(b)) == b
  {
    var hi, lo := FromU16(b[..2]), FromU16(b[2..]);
    assert FromU32(b) / TWO16 == hi && FromU32(b) % TWO16 == lo;
    assert U16(hi) == b[..2] && U16(lo) == b[2..];
  }

  /** Frame: the buffer is filled index by index, the length truncated to 32 bits. */
  method Frame(t: Byte, body: Bytes) returns (out: array<Byte>)
    ensures fresh(out) && out[..] == FrameBytes(t, body)
  {
    out := new Byte[5 + |body|](_ => 0);
    var l := |body| % TWO32;
    out[0] := t;
    out[1] := l / 0x100_0000 % 256;
    out[2] := l / 0x1_0000 % 256;
    out[3] := l / 0x100 % 256;
    out[4] := l % 256;
    U32Bytes(l);
    assert out[..5] == [t] + U32(l);
    CopyInto(out, 5, body);
    assert out[..] == out[..5] + out[5..];
  }

  method CopyInto(out: array<Byte>, at: nat, src: Bytes)
    requires at + |src| == out.Length
    modifies out
    ensures out[..at] == old(out[..at]) && out[at..] == src
  {
    var i := 0;
    while i < |src|
      invariant 0 <= i <= |src|
      invariant out[..at] == old(out[..at])
      invariant forall j :: 0 <= j < i ==> out[at + j] == src[j]
    {
      out[at + i] := src[i];
      i := i + 1;
    }
  }

  // ---------------------------------------------------------------- bodies

  /** putU64BE */
  method PutU64(b: array<Byte>, v: int)
    requires b.Length >= 8 && 0 <= v < TWO64
    modifies b
    ensures b[..8] == U64(v) && b[8..] == old(b[8..])
  {
    b[0] := v / 0x100_0000_0000_0000 % 256;
    b[1] := v / 0x1_0000_0000_0000 % 256;
    b[2] := v / 0x100_0000_0000 % 256;
    b[3] := v / 0x1_0000_0000 % 256;
    b[4] := v / 0x100_0000 % 256;
    b[5] := v / 0x1_0000 % 256;
    b[6] := v / 0x100 % 256;
    b[7] := v % 256;
    U64Bytes(v);
  }

  function DeliverBody(id: int, envelope: Bytes): (b: Bytes)
    requires 0 <= id < TWO64
    ensures |b| == 8 + |envelope|
  {
    U64(id) + envelope
  }

  function DecodeDeliver(body: Bytes): (r: Option<(int, Bytes)>)
    ensures r.Some? ==> 0 <= r.value.0 < TWO64
  {
    if |body| < 8 then None else Some((FromU64(body[..8]), body[8..]))
  }

  /** DecodeDeliverAckBody: trailing bytes are ignored. */
  function DecodeDeliverAck(body: Bytes): (r: Option<int>)
    ensures r.Some? ==> 0 <= r.value < TWO64
  {
    if |body| < 8 then None else Some(FromU64(body[..8]))
  }

  method EncodeDeliverBody(id: int, envelope: Bytes) returns (out: array<Byte>)
    requires 0 <= id < TWO64
    ensures fresh(out) && out[..] == DeliverBody(id, envelope)
  {
    out := new Byte[8 + |envelope|](_ => 0);
    PutU64(out, id);
    CopyInto(out, 8, envelope);
    assert out[..] == out[..8] + out[8..];
  }

  /** uint64(id) and int64(u): two's complement reinterpretation. */
  function ToU64(id: int): (u: int)
    ensures 0 <= u < TWO64
  {
    id % TWO64
  }

  function ToI64(u: int): int {
    if u < TWO63 then u else u - TWO64
  }

  predicate IsI64(id: int) {
    -TWO63 <= id < TWO63
  }

  /** Every int64 blob id survives the Deliver body, the Device's echo of it in a
      DeliverAck body, and the conversion back; the envelope bytes survive too. */
  lemma BlobIdRoundTrip(id: int, envelope: Bytes, tail: Bytes)
    requires IsI64(id)
    ensures DecodeDeliver(DeliverBody(ToU64(id), envelope)) == Some((ToU64(id), envelope))
    ensures DecodeDeliverAck(U64(ToU64(id)) + tail) == Some(ToU64(id))
    ensures ToI64(ToU64(id)) == id
  {
    var u := ToU64(id);
    U64RoundTrip(u);
    assert DeliverBody(u, envelope)[..8] == U64(u) && DeliverBody(u, envelope)[8..] == envelope;
    assert (U64(u) + tail)[..8] == U64(u);
  }

  // ---------------------------------------------------------------- error reasons

  const REASON_TOO_LARGE: Byte := 0x01
  const REASON_MALFORMED: Byte := 0x02
  const REASON_INBOX_FULL: Byte := 0x81
  const REASON_RATE_LIMITED: Byte := 0x82
  const REASON_INTERNAL: Byte := 0x84

  /** Bit 7 marks a refusal that may succeed later. */
  predicate Temporary(reason: Byte) {
    reason / 128 % 2 == 1
  }
}

module Transport {
  import opened Base
  import opened FrameCodec

  const MAX_NOISE := 65535
  const TAG_BYTES := 16

  /** writeNoiseMsg: the length is truncated to its u16 prefix. */
  function WriteMsg(msg: Bytes): Bytes {
    U16(|msg| % TWO16) + msg
  }

  function ReadMsg(stream: Bytes): (r: Option<(Bytes, Bytes)>)
    ensures r.Some? ==> |r.value.1| < |stream|
  {
    if |stream| < 2 then None else
    var n := FromU16(stream[..2]);
    if |stream| - 2 < n then None else Some((stream[2..2 + n], stream[2 + n..]))
  }

  /** One message is read back exactly when its length fits the prefix. */
  lemma ReadOfWrite(msg: Bytes, rest: Bytes)
    ensures ReadMsg(WriteMsg(msg) + rest) == Some((msg, rest)) <==> |msg| <= MAX_NOISE
  {
    var n := |msg| % TWO16;
    var stream := WriteMsg(msg) + rest;
    assert stream[..2] == U16(n);
    U16RoundTrip(n);
    if |msg| <= MAX_NOISE {
      assert stream[2..2 + n] == msg && stream[2 + n..] == rest;
    } else {
      assert n < |msg|;
      assert |stream[2..2 + n]| == n;
    }
  }

  /** A cut-off message yields nothing. */
  lemma ReadOfCut(msg: Bytes, k: nat)
    requires |msg| <= MAX_NOISE && k < |WriteMsg(msg)|
    ensures ReadMsg(WriteMsg(msg)[..k]).None?
  {
    if k >= 2 {
      assert WriteMsg(msg)[..k][..2] == U16(|msg|);
      U16RoundTrip(|msg|);
    }
  }

  /** Reading as many messages as the stream holds. */
  function ReadAll(stream: Bytes): seq<Bytes>
    decreases |stream|
  {
    match ReadMsg(stream)
    case None => []
    case Some((m, rest)) => [m] + ReadAll(rest)
  }

  function WriteAll(msgs: seq<Bytes>): Bytes {
    if msgs == [] then [] else WriteMsg(msgs[0]) + WriteAll(msgs[1..])
  }

  predicate Fits(msgs: seq<Bytes>) {
    forall m :: m in msgs ==> |m| <= MAX_NOISE
  }

  lemma {:induction false} WriteAllSnoc(msgs: seq<Bytes>, m: Bytes)
    ensures WriteAll(msgs + [m]) == WriteAll(msgs) + WriteMsg(m)
  {
    if msgs == [] {
      assert [m][1..] == [];
      assert WriteMsg(m) + [] == WriteMsg(m);
      assert msgs + [m] == [m];
      assert [] + WriteMsg(m) == WriteMsg(m);
    } else {
      WriteAllSnoc(msgs[1..], m);
      assert (msgs + [m])[1..] == msgs[1..] + [m];
      assert WriteMsg(msgs[0]) + (WriteAll(msgs[1..]) + WriteMsg(m)) == WriteAll(msgs) + WriteMsg(m);
    }
  }

  /** A stream of fitting messages followed by a cut-off one reads back as exactly the
      complete messages, in order. */
  lemma {:induction false} ReadAllOfWriteAll(msgs: seq<Bytes>, cut: Bytes)
    requires Fits(msgs) && ReadMsg(cut).None?
    ensures ReadAll(WriteAll(msgs) + cut) == msgs
  {
    if msgs == [] {
      assert [] + cut == cut;
    } else {
      var rest := WriteAll(msgs[1..]) + cut;
      ReadOfWrite(msgs[0], rest);
      assert WriteAll(msgs) + cut == WriteMsg(msgs[0]) + rest;
      ReadAllOfWriteAll(msgs[1..], cut);
      assert [msgs[0]] + msgs[1..] == msgs;
    }
  }

  lemma ReadOfPrefix(stream: Bytes, n: nat)
    requires n <= |stream| && ReadMsg(stream[..n]).Some?
    ensures var (m, rest) := ReadMsg(stream[..n]).value;
            && ReadMsg(stream).Some? && ReadMsg(stream).value.0 == m && |rest| <= |ReadMsg(stream).value.1|
            && rest == ReadMsg(stream).value.1[..|rest|]
  {
    assert stream[..n][..2] == stream[..2];
  }

  /** Of a stream cut off anywhere, only messages that it had are read, in order. */
  lemma {:induction false} ReadAllOfPrefix(stream: Bytes, n: nat)
    requires n <= |stream|
    ensures IsPrefix(ReadAll(stream[..n]), ReadAll(stream))
    decreases n
  {
    if ReadMsg(stream[..n]).Some? {
      ReadOfPrefix(stream, n);
      ReadAllOfPrefix(ReadMsg(stream).value.1, |ReadMsg(stream[..n]).value.1|);
    }
  }

  /** Length prefix and body go out in one buffer. */
  method WriteNoiseMsg(msg: Bytes) returns (out: array<Byte>)
    ensures fresh(out) && out[..] == WriteMsg(msg)
  {
    out := new Byte[2 + |msg|](_ => 0);
    var n := |msg| % TWO16;
    out[0] := n / 256;
    out[1] := n % 256;
    CopyInto(out, 2, msg);
    assert out[..] == out[..2] + out[2..];
    assert out[..2] == U16(n);
  }

  const PROTOCOL_MAX_ENVELOPE := 65482

  /** The size budget: an envelope at the protocol ceiling fills a Push frame's ciphertext
      to exactly the u16 maximum, and a stored envelope fits a Deliver frame whenever it
      is at most 24 bytes above that ceiling, so always below it. */
  lemma SizeBudget(key: Key, envelope: Bytes, id: int)
    requires 0 <= id < TWO64
    ensures |FrameBytes(PUSH, key + envelope)| + TAG_BYTES <= MAX_NOISE <==> |envelope| <= PROTOCOL_MAX_ENVELOPE
    ensures |envelope| == PROTOCOL_MAX_ENVELOPE ==> |FrameBytes(PUSH, key + envelope)| + TAG_BYTES == MAX_NOISE
    ensures |FrameBytes(DELIVER, DeliverBody(id, envelope))| + TAG_BYTES <= MAX_NOISE
            <==> |envelope| <= PROTOCOL_MAX_ENVELOPE + 24
  {
  }
}
