/**
  The wire walker that reads recipient_pub out of a serialized Envelope
  (internal/relay/envelope_recipient.go), proved equal to a declarative grammar.

  The grammar is written as a printer: a message is a list of valid fields, and its
  bytes are the fields printed one after another.  Varints are kept as the byte strings
  they are, because the walker accepts non-minimal ones.
 */
module EnvelopeWire {
  import opened Base

  const RECIPIENT_FIELD := 3
  const MAX_VARINT := 10

  // ---------------------------------------------------------------- varints

  function Pow128(n: nat): (p: nat)
    ensures p >= 1
  {
    if n == 0 then 1 else 128 * Pow128(n - 1)
  }

  /** The number a run of 7-bit groups denotes, least significant group first. */
  function Groups(bs: Bytes): nat {
    if bs == [] then 0 else bs[0] % 128 + 128 * Groups(bs[1..])
  }

  lemma {:induction false} GroupsBound(bs: Bytes)
    ensures Groups(bs) < Pow128(|bs|)
  {
    if bs != [] {
      GroupsBound(bs[1..]);
    }
  }

  /** One complete varint, as the walker understands it: continuation bits on every byte
      but the last, at most ten bytes, and at most one value bit in the tenth. */
  predicate IsVarint(bs: Bytes) {
    && 1 <= |bs| <= MAX_VARINT
    && (forall i :: 0 <= i < |bs| - 1 ==> bs[i] >= 128)
    && bs[|bs| - 1] < 128
    && (|bs| == MAX_VARINT ==> bs[MAX_VARINT - 1] <= 1)
  }

  lemma {:induction false} GroupsSnoc(bs: Bytes, b: Byte)
    ensures Groups(bs + [b]) == Groups(bs) + (b % 128) * Pow128(|bs|)
  {
    if bs == [] {
      assert [b][1..] == [];
    } else {
      GroupsSnoc(bs[1..], b);
      assert (bs + [b])[1..] == bs[1..] + [b];
      GroupUp(Groups(bs[1..]), b % 128, Pow128(|bs| - 1));
    }
  }

  lemma GroupUp(rest: nat, group: nat, p: nat)
    ensures 128 * (rest + group * p) == 128 * rest + group * (128 * p)
  {
  }

  lemma Pow128At9()
    ensures Pow128(9) == 0x8000_0000_0000_0000
  {
    assert Pow128(3) == 128 * 128 * 128;
    assert Pow128(6) == 128 * 128 * 128 * Pow128(3);
    assert Pow128(9) == 128 * 128 * 128 * Pow128(6);
  }

  lemma {:induction false} Pow128Monotone(m: nat, n: nat)
    requires m <= n
    ensures Pow128(m) <= Pow128(n)
  {
    if m < n {
      Pow128Monotone(m, n - 1);
    }
  }

  /** No accepted varint overflows the 64-bit accumulator. */
  lemma VarintFitsIn64Bits(bs: Bytes)
    requires IsVarint(bs)
    ensures Groups(bs) < TWO64
  {
    Pow128At9();
    if |bs| == MAX_VARINT {
      var init := bs[..9];
      GroupsBound(init);
      assert bs == init + [bs[9]];
      GroupsSnoc(init, bs[9]);
    } else {
      GroupsBound(bs);
      Pow128Monotone(|bs|, 9);
    }
  }

  /** The length of the varint at the front of `bs`, or 0 when there is none. */
  function VarintLength(bs: Bytes): (n: nat)
    ensures n <= |bs|
  {
    VarintScan(bs, 0)
  }

  function VarintScan(bs: Bytes, i: nat): (n: nat)
    requires i <= |bs| && i <= MAX_VARINT
    ensures n > 0 ==> i < n <= |bs|
    decreases MAX_VARINT - i
  {
    if i == |bs| || i == MAX_VARINT || (i == 9 && bs[i] > 1) then 0
    else if bs[i] < 128 then i + 1
    else VarintScan(bs, i + 1)
  }

  /** What the scan finds is a varint. */
  lemma {:induction false} ScanFindsVarint(bs: Bytes, i: nat)
    requires i <= |bs| && i <= MAX_VARINT
    requires forall j :: 0 <= j < i ==> bs[j] >= 128
    ensures VarintScan(bs, i) > 0 ==> IsVarint(bs[..VarintScan(bs, i)])
    decreases MAX_VARINT - i
  {
    if !(i == |bs| || i == MAX_VARINT || (i == 9 && bs[i] > 1)) && bs[i] >= 128 {
      ScanFindsVarint(bs, i + 1);
    }
  }

  /** Whatever varint a string starts with, the scan finds that one: varints are
      self-delimiting. */
  lemma {:induction false} ScanOfPrefix(v: Bytes, rest: Bytes, i: nat)
    requires IsVarint(v) && i < |v|
    ensures VarintScan(v + rest, i) == |v|
    decreases |v| - i
  {
    assert (v + rest)[i] == v[i];
    if i + 1 < |v| {
      ScanOfPrefix(v, rest, i + 1);
    }
  }

  /** readVarint: value and bytes consumed, 0 consumed on a truncated or overlong varint. */
  method ReadVarint(b: Bytes) returns (v: nat, n: nat)
    ensures n == VarintLength(b)
    ensures n > 0 ==> v == Groups(b[..n]) && v < TWO64
    ensures n == 0 ==> v == 0
  {
    v := 0;
    var i := 0;
    while i < |b| && i < MAX_VARINT
      invariant 0 <= i <= |b| && i <= MAX_VARINT
      invariant v == Groups(b[..i])
      invariant VarintScan(b, 0) == VarintScan(b, i)
    {
      var c := b[i];
      if i == 9 && c > 1 {
        return 0, 0;
      }
      v := OrGroup(v, c, i, b[..i]);
      assert b[..i + 1] == b[..i] + [c];
      if c < 128 {
        ScanFindsVarint(b, 0);
        VarintFitsIn64Bits(b[..i + 1]);
        return v, i + 1;
      }
      i := i + 1;
    }
    return 0, 0;
  }

  /** The accumulation step.  Shifting a 7-bit group by 7i and ORing it into an
      accumulator below 128^i touches only clear bits, so it is an addition. */
  method OrGroup(v: nat, c: Byte, i: nat, ghost read: Bytes) returns (w: nat)
    requires |read| == i && v == Groups(read)
    ensures v < Pow128(i)
    ensures w == Groups(read + [c])
  {
    GroupsBound(read);
    GroupsSnoc(read, c);
    w := v + (c % 128) * Pow128(i);
  }

  // ---------------------------------------------------------------- the grammar

  datatype Payload =
    | VarintValue(value: Bytes)
    | Fixed64(value: Bytes)
    | Delimited(length: Bytes, data: Bytes)
    | Fixed32(value: Bytes)
  {
    predicate Valid(wireType: int) {
      match this
      case VarintValue(v) => wireType == 0 && IsVarint(v)
      case Fixed64(v) => wireType == 1 && |v| == 8
      case Delimited(l, data) => wireType == 2 && IsVarint(l) && Groups(l) == |data|
      case Fixed32(v) => wireType == 5 && |v| == 4
    }

    function Print(): Bytes {
      if Delimited? then length + data else value
    }
  }

  datatype Field = Field(tag: Bytes, payload: Payload) {
    function Number(): nat { Groups(tag) / 8 }

    function WireType(): nat { Groups(tag) % 8 }

    predicate Valid() {
      IsVarint(tag) && Number() != 0 && payload.Valid(WireType())
    }

    function Print(): Bytes { tag + payload.Print() }

    predicate IsRecipient() {
      payload.Delimited? && Number() == RECIPIENT_FIELD
    }
  }

  predicate AllValid(fs: seq<Field>) {
    forall f :: f in fs ==> f.Valid()
  }

  function PrintAll(fs: seq<Field>): Bytes {
    if fs == [] then [] else fs[0].Print() + PrintAll(fs[1..])
  }

  /** The contents of every length-delimited field 3, in order. */
  function Recipients(fs: seq<Field>): seq<Bytes> {
    if fs == [] then []
    else (if fs[0].IsRecipient() then [fs[0].payload.data] else []) + Recipients(fs[1..])
  }

  /** The declarative meaning of "this envelope is addressed to k". */
  ghost predicate Addresses(envelope: Bytes, k: Key) {
    exists fs: seq<Field> :: AllValid(fs) && PrintAll(fs) == envelope && Recipients(fs) == [k]
  }

  // ---------------------------------------------------------------- decoding

  /** The payload of the given wire type at the front of `bs`. */
  function FirstPayload(wireType: int, bs: Bytes): (r: Option<Payload>)
    ensures r.Some? ==> |r.value.Print()| <= |bs|
  {
    if wireType == 0 then
      var n := VarintLength(bs);
      if n == 0 then None else Some(VarintValue(bs[..n]))
    else if wireType == 1 then
      if |bs| < 8 then None else Some(Fixed64(bs[..8]))
    else if wireType == 2 then
      var n := VarintLength(bs);
      if n == 0 || |bs| - n < Groups(bs[..n]) then None
      else Some(Delimited(bs[..n], bs[n..n + Groups(bs[..n])]))
    else if wireType == 5 then
      if |bs| < 4 then None else Some(Fixed32(bs[..4]))
    else None
  }

  lemma DelimitedSound(bs: Bytes)
    requires FirstPayload(2, bs).Some?
    ensures var p := FirstPayload(2, bs).value;
            p.Valid(2) && bs == p.Print() + bs[|p.Print()|..]
  {
    var n := VarintLength(bs);
    ScanFindsVarint(bs, 0);
    var m := Groups(bs[..n]);
    SplitInThree(bs, n, m);
    assert |bs[..n] + bs[n..n + m]| == n + m;
  }

  lemma SplitInThree<T>(s: seq<T>, n: nat, m: nat)
    requires n + m <= |s|
    ensures s == s[..n] + s[n..n + m] + s[n + m..]
  {
  }

  lemma FirstPayloadSound(wireType: int, bs: Bytes)
    requires FirstPayload(wireType, bs).Some?
    ensures var p := FirstPayload(wireType, bs).value;
            p.Valid(wireType) && bs == p.Print() + bs[|p.Print()|..]
  {
    if wireType == 2 {
      DelimitedSound(bs);
    } else {
      ScanFindsVarint(bs, 0);
    }
  }

  lemma DelimitedOfPrint(l: Bytes, data: Bytes, rest: Bytes)
    requires IsVarint(l) && Groups(l) == |data|
    ensures FirstPayload(2, l + data + rest) == Some(Delimited(l, data))
  {
    var bs := l + data + rest;
    assert bs == l + (data + rest);
    ScanOfPrefix(l, data + rest, 0);
    assert bs[..|l|] == l;
    assert bs[|l|..|l| + |data|] == data;
  }

  lemma FirstPayloadOfPrint(wireType: int, p: Payload, rest: Bytes)
    requires p.Valid(wireType)
    ensures FirstPayload(wireType, p.Print() + rest) == Some(p)
  {
    if p.Delimited? {
      DelimitedOfPrint(p.length, p.data, rest);
    } else {
      if p.VarintValue? {
        ScanOfPrefix(p.value, rest, 0);
      }
      assert (p.value + rest)[..|p.value|] == p.value;
    }
  }

  /** The first field of `bs`, if `bs` starts with one. */
  function FirstField(bs: Bytes): (r: Option<Field>)
    ensures r.Some? ==> 1 <= |r.value.Print()| <= |bs|
  {
    var n := VarintLength(bs);
    if n == 0 then None else
    var tag := bs[..n];
    if Groups(tag) / 8 == 0 then None else
    match FirstPayload(Groups(tag) % 8, bs[n..])
    case None => None
    case Some(p) => Some(Field(tag, p))
  }

  lemma FirstFieldSound(bs: Bytes)
    requires FirstField(bs).Some?
    ensures var f := FirstField(bs).value; f.Valid() && bs == f.Print() + bs[|f.Print()|..]
  {
    var f := FirstField(bs).value;
    var n := |f.tag|;
    ScanFindsVarint(bs, 0);
    FirstPayloadSound(f.WireType(), bs[n..]);
    assert bs == f.tag + bs[n..];
    assert bs[n..][|f.payload.Print()|..] == bs[|f.Print()|..];
  }

  /** A printed field is read back whatever follows it. */
  lemma FirstFieldOfPrint(f: Field, rest: Bytes)
    requires f.Valid()
    ensures FirstField(f.Print() + rest) == Some(f)
  {
    var after := f.payload.Print() + rest;
    var bs := f.Print() + rest;
    assert bs == f.tag + after;
    ScanOfPrefix(f.tag, after, 0);
    assert bs[..|f.tag|] == f.tag && bs[|f.tag|..] == after;
    FirstPayloadOfPrint(f.WireType(), f.payload, rest);
  }

  function Decode(bs: Bytes): (r: Option<seq<Field>>)
    decreases |bs|
  {
    if bs == [] then Some([]) else
    match FirstField(bs)
    case None => None
    case Some(f) =>
      match Decode(bs[|f.Print()|..])
      case None => None
      case Some(fs) => Some([f] + fs)
  }

  /** What decodes is a list of valid fields that prints back to the input. */
  lemma {:induction false} DecodeSound(bs: Bytes)
    requires Decode(bs).Some?
    ensures AllValid(Decode(bs).value) && PrintAll(Decode(bs).value) == bs
    decreases |bs|
  {
    if bs != [] {
      FirstFieldSound(bs);
      var f := FirstField(bs).value;
      var rest := bs[|f.Print()|..];
      DecodeSound(rest);
      assert Decode(bs).value[1..] == Decode(rest).value;
    }
  }

  /** Decoding inverts printing on every valid field list. */
  lemma {:induction false} DecodeOfPrint(fs: seq<Field>)
    requires AllValid(fs)
    ensures Decode(PrintAll(fs)) == Some(fs)
  {
    if fs != [] {
      var rest := PrintAll(fs[1..]);
      FirstFieldOfPrint(fs[0], rest);
      assert (fs[0].Print() + rest)[|fs[0].Print()|..] == rest;
      DecodeOfPrint(fs[1..]);
      assert [fs[0]] + fs[1..] == fs;
    }
  }

  /** A message splits into fields in at most one way. */
  lemma SplitUnique(fs: seq<Field>, gs: seq<Field>)
    requires AllValid(fs) && AllValid(gs) && PrintAll(fs) == PrintAll(gs)
    ensures fs == gs
  {
    DecodeOfPrint(fs);
    DecodeOfPrint(gs);
  }

  /** The recipient of an envelope as a function of its bytes. */
  function Recipient(envelope: Bytes): Option<Key> {
    match Decode(envelope)
    case None => None
    case Some(fs) => TheRecipient(Recipients(fs))
  }

  function TheRecipient(rs: seq<Bytes>): Option<Key> {
    if |rs| == 1 && |rs[0]| == 32 then Some(rs[0]) else None
  }

  /** The function and the grammar agree in both directions. */
  lemma RecipientIsGrammar(envelope: Bytes, k: Key)
    ensures Recipient(envelope) == Some(k) <==> Addresses(envelope, k)
  {
    if Recipient(envelope) == Some(k) {
      DecodeSound(envelope);
      assert Recipients(Decode(envelope).value) == [k];
    }
    if Addresses(envelope, k) {
      var fs: seq<Field> :| AllValid(fs) && PrintAll(fs) == envelope && Recipients(fs) == [k];
      DecodeOfPrint(fs);
    }
  }

  /** An envelope addresses at most one Device. */
  lemma AddresseeUnique(envelope: Bytes, k: Key, l: Key)
    requires Addresses(envelope, k) && Addresses(envelope, l)
    ensures k == l
  {
    RecipientIsGrammar(envelope, k);
    RecipientIsGrammar(envelope, l);
  }

  lemma OneByte(b: Byte)
    requires b < 128
    ensures Groups([b]) == b && IsVarint([b])
  {
    assert [b][1..] == [] && Groups([]) == 0;
  }

  /** A field whose tag is one byte. */
  lemma ShortTag(tag: Byte, p: Payload)
    requires 8 <= tag < 128 && p.Valid(tag as int % 8)
    ensures Field([tag], p).Valid() && Field([tag], p).Number() == tag as int / 8
  {
    OneByte(tag);
  }

  /** The bytes are fields, and the contents of their recipient fields are these. */
  ghost predicate Names(envelope: Bytes, recipients: seq<Bytes>) {
    exists fs: seq<Field> :: AllValid(fs) && PrintAll(fs) == envelope && Recipients(fs) == recipients
  }

  /** A field before others adds its own recipient, if it is one, and nothing else. */
  lemma FieldFirst(f: Field, rest: Bytes, recipients: seq<Bytes>)
    requires f.Valid() && Names(rest, recipients)
    ensures Names(f.Print() + rest, (if f.IsRecipient() then [f.payload.data] else []) + recipients)
  {
    var fs :| AllValid(fs) && PrintAll(fs) == rest && Recipients(fs) == recipients;
    assert ([f] + fs)[1..] == fs;
    assert AllValid([f] + fs) && PrintAll([f] + fs) == f.Print() + rest;
  }

  lemma NoFields()
    ensures Names([], [])
  {
    assert AllValid([]) && PrintAll([]) == [] && Recipients([]) == [];
  }

  /** On real bytes: a recipient field - tag 26, length 32 - names its Device among fields of every
      other kind the format has, whatever they hold: a varint, eight bytes, counted bytes before it
      and four bytes after it. */
  lemma AddressedAmongOthers(v: Byte, eight: Bytes, data: Bytes, k: Key, four: Bytes)
    requires v < 128 && |eight| == 8 && |data| < 128 && |four| == 4
    ensures Addresses([8, v] + (([9] + eight) + (([18, |data|] + data) + (([26, 32] + k) + ([37] + four)))), k)
  {
    NoFields();
    OneByte(v); OneByte(|data|); OneByte(32);
    var e := Field([37], Fixed32(four));
    ShortTag(37, e.payload);
    FieldFirst(e, [], []);
    assert [37] + four + [] == [37] + four;
    var d := Field([26], Delimited([32], k));
    ShortTag(26, d.payload);
    assert [26] + ([32] + k) == [26, 32] + k;
    FieldFirst(d, [37] + four, []);
    OthersBefore(v, eight, data, ([26, 32] + k) + ([37] + four), [k]);
  }

  lemma OthersBefore(v: Byte, eight: Bytes, data: Bytes, rest: Bytes, recipients: seq<Bytes>)
    requires v < 128 && |eight| == 8 && |data| < 128 && Names(rest, recipients)
    ensures Names([8, v] + (([9] + eight) + (([18, |data|] + data) + rest)), recipients)
  {
    OneByte(v); OneByte(|data|);
    var c := Field([18], Delimited([|data|], data));
    ShortTag(18, c.payload);
    assert c.Print() == [18, |data|] + data;
    FieldFirst(c, rest, recipients);
    var b := Field([9], Fixed64(eight));
    ShortTag(9, b.payload);
    FieldFirst(b, ([18, |data|] + data) + rest, recipients);
    var a := Field([8], VarintValue([v]));
    ShortTag(8, a.payload);
    assert a.Print() == [8, v];
    FieldFirst(a, ([9] + eight) + (([18, |data|] + data) + rest), recipients);
    assert [] + recipients == recipients;
  }

  // ---------------------------------------------------------------- the walker

  datatype WireError =
    | TruncatedTag | FieldZero | TruncatedVarint | TruncatedFixed64 | TruncatedLength
    | LengthOverrun | RecipientNot32 | TruncatedFixed32 | UnsupportedWireType
    | NoRecipient | DuplicateRecipient

  datatype Extracted = Extracted(key: Key) | Malformed(error: WireError)

  function Met(f: Field): seq<Bytes> {
    if f.IsRecipient() then [f.payload.data] else []
  }

  /** The answer for the rest of the input, given the recipients met so far. */
  function Answer(rest: Bytes, met: seq<Bytes>): Option<Key>
    decreases |rest|
  {
    if rest == [] then TheRecipient(met) else
    match FirstField(rest)
    case None => None
    case Some(f) => Answer(rest[|f.Print()|..], met + Met(f))
  }

  /** Walking field by field gives the answer that decoding everything first gives. */
  lemma {:induction false} AnswerIsDecode(rest: Bytes, met: seq<Bytes>)
    ensures Answer(rest, met) == match Decode(rest) {
        case None => None
        case Some(fs) => TheRecipient(met + Recipients(fs))
      }
    decreases |rest|
  {
    if rest == [] {
      assert met + [] == met;
    } else if FirstField(rest).Some? {
      var f := FirstField(rest).value;
      var after := rest[|f.Print()|..];
      AnswerIsDecode(after, met + Met(f));
      if Decode(after).Some? {
        MetFirst(met, f, Decode(after).value);
      }
    }
  }

  lemma MetFirst(met: seq<Bytes>, f: Field, fs: seq<Field>)
    ensures met + Recipients([f] + fs) == met + Met(f) + Recipients(fs)
  {
    assert ([f] + fs)[1..] == fs;
  }

  lemma AnswerStart(envelope: Bytes)
    ensures Recipient(envelope) == Answer(envelope[0..], [])
  {
    assert envelope[0..] == envelope;
    AnswerIsDecode(envelope, []);
    if Decode(envelope).Some? {
      assert [] + Recipients(Decode(envelope).value) == Recipients(Decode(envelope).value);
    }
  }

  /** A recipient of the wrong length cannot be repaired by what follows. */
  lemma BadRecipient(rest: Bytes, met: seq<Bytes>, i: nat)
    requires i < |met| && |met[i]| != 32
    ensures Answer(rest, met).None?
  {
    AnswerIsDecode(rest, met);
    if Decode(rest).Some? {
      assert (met + Recipients(Decode(rest).value))[i] == met[i];
    }
  }

  /** The length-delimited case: length varint, bounds check, then the data. */
  method SkipDelimited(envelope: Bytes, pos: nat) returns (error: Option<WireError>, data: nat, next: nat)
    requires pos <= |envelope|
    ensures error.Some? <==> FirstPayload(2, envelope[pos..]).None?
    ensures error.None? ==>
              && pos <= data <= next <= |envelope|
              && next == pos + |FirstPayload(2, envelope[pos..]).value.Print()|
              && FirstPayload(2, envelope[pos..]).value.data == envelope[data..next]
  {
    ghost var rest := envelope[pos..];
    var length, n := ReadVarint(envelope[pos..]);
    if n == 0 {
      return Some(TruncatedLength), pos, pos;
    }
    if |envelope| - (pos + n) < length {
      return Some(LengthOverrun), pos, pos;
    }
    SliceOfRest(envelope, pos, n, length);
    return None, pos + n, pos + n + length;
  }

  lemma SliceOfRest(s: Bytes, pos: nat, n: nat, length: nat)
    requires pos + n + length <= |s|
    ensures s[pos..][n..n + length] == s[pos + n..pos + n + length]
  {
  }

  /** A payload of this wire type lies at `pos` and ends at `next`; if length-delimited,
      its data starts at `data`. */
  ghost predicate IsPayloadAt(envelope: Bytes, pos: nat, wireType: nat, data: nat, next: nat)
    requires pos <= |envelope|
  {
    var p := FirstPayload(wireType, envelope[pos..]);
    && p.Some?
    && pos <= data <= next == pos + |p.value.Print()| <= |envelope|
    && (p.value.Delimited? <==> wireType == 2)
    && (wireType == 2 ==> p.value.data == envelope[data..next])
  }

  /** Skipping one payload: the switch on the wire type.  `next` is the offset after it. */
  method SkipPayload(envelope: Bytes, pos: nat, wireType: nat) returns (error: Option<WireError>, data: nat, next: nat)
    requires pos <= |envelope|
    ensures error.Some? <==> FirstPayload(wireType, envelope[pos..]).None?
    ensures error.None? ==> IsPayloadAt(envelope, pos, wireType, data, next)
  {
    error, data, next := None, pos, pos;
    if wireType == 0 {
      var _, n := ReadVarint(envelope[pos..]);
      if n == 0 {
        error := Some(TruncatedVarint);
      }
      next := pos + n;
    } else if wireType == 1 {
      if |envelope| - pos < 8 {
        error := Some(TruncatedFixed64);
      }
      next := pos + 8;
    } else if wireType == 2 {
      error, data, next := SkipDelimited(envelope, pos);
    } else if wireType == 5 {
      if |envelope| - pos < 4 {
        error := Some(TruncatedFixed32);
      }
      next := pos + 4;
    } else {
      error := Some(UnsupportedWireType);
    }
  }

  /** A field lies at `pos`, ends at `next`, and is a recipient field or not. */
  ghost predicate IsFieldAt(envelope: Bytes, pos: nat, recipient: bool, data: nat, next: nat)
    requires pos < data <= next <= |envelope|
  {
    var r := FirstField(envelope[pos..]);
    && r.Some?
    && next == pos + |r.value.Print()|
    && Met(r.value) == if recipient then [envelope[data..next]] else []
  }

  /** A tag varint of n bytes at `pos` splits the first field into tag and payload. */
  lemma FieldParts(envelope: Bytes, pos: nat, n: nat)
    requires pos < |envelope| && n == VarintLength(envelope[pos..]) && n > 0
    ensures var tag := envelope[pos..][..n];
            FirstField(envelope[pos..]) ==
            if Groups(tag) / 8 == 0 || FirstPayload(Groups(tag) % 8, envelope[pos + n..]).None? then None
            else Some(Field(tag, FirstPayload(Groups(tag) % 8, envelope[pos + n..]).value))
  {
    assert envelope[pos..][n..] == envelope[pos + n..];
  }

  lemma NoField(envelope: Bytes, pos: nat, n: nat, tag: nat)
    requires pos < |envelope| && n == VarintLength(envelope[pos..])
    requires n > 0 ==> tag == Groups(envelope[pos..][..n])
    requires n > 0 && tag / 8 != 0 ==> FirstPayload(tag % 8, envelope[pos + n..]).None?
    ensures FirstField(envelope[pos..]).None?
  {
    if n > 0 {
      FieldParts(envelope, pos, n);
    }
  }

  lemma TagThenPayload(envelope: Bytes, pos: nat, n: nat, tag: nat, data: nat, next: nat)
    requires pos < |envelope| && n == VarintLength(envelope[pos..]) && n > 0
    requires tag == Groups(envelope[pos..][..n]) && tag / 8 != 0
    requires IsPayloadAt(envelope, pos + n, tag % 8, data, next)
    ensures pos < data <= next <= |envelope|
    ensures IsFieldAt(envelope, pos, tag % 8 == 2 && tag / 8 == RECIPIENT_FIELD, data, next)
  {
    FieldParts(envelope, pos, n);
  }

  /** Skipping one field: its tag and its payload. */
  method SkipField(envelope: Bytes, pos: nat) returns (error: Option<WireError>, recipient: bool, data: nat, next: nat)
    requires pos < |envelope|
    ensures error.Some? <==> FirstField(envelope[pos..]).None?
    ensures error.None? ==> pos < data <= next <= |envelope| && IsFieldAt(envelope, pos, recipient, data, next)
  {
    var tag, n := ReadVarint(envelope[pos..]);
    if n == 0 {
      NoField(envelope, pos, n, tag);
      return Some(TruncatedTag), false, pos, pos;
    }
    error, recipient, data, next := SkipTagged(envelope, pos, n, tag);
  }

  /** The rest of a field whose tag varint takes the n bytes at `pos`. */
  method SkipTagged(envelope: Bytes, pos: nat, n: nat, tag: nat)
    returns (error: Option<WireError>, recipient: bool, data: nat, next: nat)
    requires pos < |envelope| && n == VarintLength(envelope[pos..]) && n > 0
    requires tag == Groups(envelope[pos..][..n])
    ensures error.Some? <==> FirstField(envelope[pos..]).None?
    ensures error.None? ==> pos < data <= next <= |envelope| && IsFieldAt(envelope, pos, recipient, data, next)
  {
    var fieldNum, wireType := tag / 8, tag % 8;
    if fieldNum == 0 {
      NoField(envelope, pos, n, tag);
      return Some(FieldZero), false, pos, pos;
    }
    error, data, next := SkipPayload(envelope, pos + n, wireType);
    recipient := wireType == 2 && fieldNum == RECIPIENT_FIELD;
    TaggedField(envelope, pos, n, tag, wireType, error, data, next);
  }

  /** What skipping the payload after a tag has found. */
  lemma TaggedField(envelope: Bytes, pos: nat, n: nat, tag: nat, wireType: nat, error: Option<WireError>,
                    data: nat, next: nat)
    requires pos < |envelope| && n == VarintLength(envelope[pos..]) && n > 0
    requires tag == Groups(envelope[pos..][..n]) && tag / 8 != 0
    requires wireType == tag % 8
    requires error.Some? <==> FirstPayload(wireType, envelope[pos + n..]).None?
    requires error.None? ==> IsPayloadAt(envelope, pos + n, wireType, data, next)
    ensures error.Some? ==> FirstField(envelope[pos..]).None?
    ensures error.None? ==> pos < data <= next <= |envelope|
    ensures error.None? ==> IsFieldAt(envelope, pos, wireType == 2 && tag / 8 == RECIPIENT_FIELD, data, next)
  {
    if error.Some? {
      NoField(envelope, pos, n, tag);
    } else {
      TagThenPayload(envelope, pos, n, tag, data, next);
    }
  }

  lemma AnswerStep(envelope: Bytes, pos: nat, met: seq<Bytes>, recipient: bool, data: nat, next: nat)
    requires pos < data <= next <= |envelope| && IsFieldAt(envelope, pos, recipient, data, next)
    ensures Answer(envelope[pos..], met) ==
            Answer(envelope[next..], if recipient then met + [envelope[data..next]] else met)
  {
    var f := FirstField(envelope[pos..]).value;
    assert envelope[pos..][|f.Print()|..] == envelope[next..];
    assert met + [] == met;
  }

  /** The next field, and what it means for the answer. */
  method NextField(envelope: Bytes, pos: nat, ghost met: seq<Bytes>)
    returns (error: Option<WireError>, recipient: bool, data: nat, next: nat)
    requires pos < |envelope|
    ensures error.Some? ==> Answer(envelope[pos..], met).None?
    ensures error.None? ==>
              && pos < data <= next <= |envelope|
              && Answer(envelope[pos..], met) ==
                 Answer(envelope[next..], if recipient then met + [envelope[data..next]] else met)
  {
    error, recipient, data, next := SkipField(envelope, pos);
    if error.None? {
      AnswerStep(envelope, pos, met, recipient, data, next);
    }
  }

  /** The loop's variables count the recipients met and hold the last one. */
  ghost predicate Tracks(found: int, key: Key, met: seq<Bytes>) {
    found == |met| && (met != [] ==> met[|met| - 1] == key)
  }

  /** One round of the loop. */
  method WalkField(envelope: Bytes, pos: nat, found: int, key: Key, ghost met: seq<Bytes>)
    returns (error: Option<WireError>, next: nat, found': int, key': Key, ghost met': seq<Bytes>)
    requires pos < |envelope| && Tracks(found, key, met)
    ensures error.Some? ==> Answer(envelope[pos..], met).None?
    ensures error.None? ==>
              && pos < next <= |envelope| && Tracks(found', key', met')
              && Answer(envelope[pos..], met) == Answer(envelope[next..], met')
  {
    var recipient, data;
    error, recipient, data, next := NextField(envelope, pos, met);
    found', key', met' := found, key, met;
    if error.None? && recipient {
      found', met' := found + 1, met + [envelope[data..next]];
      if next - data != 32 {
        BadRecipient(envelope[next..], met', |met|);
        error := Some(RecipientNot32);
      } else {
        key' := envelope[data..next];
      }
    }
  }

  /** extractEnvelopeRecipient: returns K exactly when the grammar says the envelope
      addresses K, and an error on every other input. */
  method ExtractRecipient(envelope: Bytes) returns (r: Extracted)
    ensures r.Extracted? ==> Addresses(envelope, r.key)
    ensures r.Malformed? ==> forall k: Key :: !Addresses(envelope, k)
    ensures Recipient(envelope) == if r.Extracted? then Some(r.key) else None
  {
    AnswerStart(envelope);
    r := Walk(envelope, Recipient(envelope));
    forall k: Key ensures Recipient(envelope) == Some(k) <==> Addresses(envelope, k) {
      RecipientIsGrammar(envelope, k);
    }
  }

  lemma AnswerEnd(found: int, key: Key, met: seq<Bytes>)
    requires Tracks(found, key, met)
    ensures Answer([], met) == if found == 1 then Some(key) else None
  {
  }

  method Walk(envelope: Bytes, ghost answer: Option<Key>) returns (r: Extracted)
    requires answer == Answer(envelope[0..], [])
    ensures answer == if r.Extracted? then Some(r.key) else None
  {
    var key: Key := seq(32, _ => 0);
    var found, pos := 0, 0;
    ghost var met: seq<Bytes> := [];
    while pos < |envelope|
      invariant 0 <= pos <= |envelope|
      invariant answer == Answer(envelope[pos..], met)
      invariant Tracks(found, key, met)
      decreases |envelope| - pos
    {
      var error;
      error, pos, found, key, met := WalkField(envelope, pos, found, key, met);
      if error.Some? {
        return Malformed(error.value);
      }
    }
    assert envelope[pos..] == [];
    AnswerEnd(found, key, met);
    r := if found == 0 then Malformed(NoRecipient)
         else if found > 1 then Malformed(DuplicateRecipient)
         else Extracted(key);
  }
}
