/**
  The inbox table (internal/store/sqlite/store.go): rows in id order, and the AUTOINCREMENT
  high-water mark that keeps ids from ever being reused.  Each SQL statement is one atomic
  function of the table, since all access goes through a single connection.
 */
module Inbox {
  import opened Base

  const MAX_ID := 0x7FFF_FFFF_FFFF_FFFF
  const NANOS := 1_000_000_000

  datatype Row = Row(id: int, recipient: Key, envelope: Bytes, expiresAt: int) {
    function ToBlob(): Blob { Blob(id, envelope) }
  }

  datatype Table = Table(rows: seq<Row>, high: int)

  const Empty := Table([], 0)

  /** 0 disables a limit. */
  datatype Limits = Limits(maxBlobs: int, maxBytes: int)

  ghost predicate Sorted(rows: seq<Row>) {
    forall i, j :: 0 <= i < j < |rows| ==> rows[i].id < rows[j].id
  }

  ghost predicate Valid(t: Table) {
    && 0 <= t.high <= MAX_ID
    && Sorted(t.rows)
    && forall r :: r in t.rows ==> 0 < r.id <= t.high
  }

  // ---------------------------------------------------------------- selecting rows

  /** The rows a WHERE clause keeps, in order. */
  function Keep(p: Row -> bool, rows: seq<Row>): (kept: seq<Row>)
    ensures forall r :: r in kept <==> r in rows && p(r)
  {
    if rows == [] then []
    else
      var init, last := rows[..|rows| - 1], rows[|rows| - 1];
      assert rows == init + [last];
      Keep(p, init) + (if p(last) then [last] else [])
  }

  lemma {:induction false} KeepSorted(p: Row -> bool, rows: seq<Row>)
    requires Sorted(rows)
    ensures Sorted(Keep(p, rows))
  {
    if rows != [] {
      var init, last := rows[..|rows| - 1], rows[|rows| - 1];
      KeepSorted(p, init);
      forall r | r in Keep(p, init) ensures r.id < last.id {
        assert r in init;
      }
    }
  }

  /** Rows with the same id are the same row. */
  lemma IdIdentifies(t: Table, r: Row, q: Row)
    requires Valid(t) && r in t.rows && q in t.rows && r.id == q.id
    ensures r == q
  {
    var i :| 0 <= i < |t.rows| && t.rows[i] == r;
    var j :| 0 <= j < |t.rows| && t.rows[j] == q;
    assert !(i < j) && !(j < i);
  }

  // ---------------------------------------------------------------- occupancy

  function BlobCount(rows: seq<Row>, k: Key): nat {
    if rows == [] then 0
    else BlobCount(rows[..|rows| - 1], k) + (if rows[|rows| - 1].recipient == k then 1 else 0)
  }

  function ByteCount(rows: seq<Row>, k: Key): nat {
    if rows == [] then 0
    else ByteCount(rows[..|rows| - 1], k) + (if rows[|rows| - 1].recipient == k then |rows[|rows| - 1].envelope| else 0)
  }

  lemma CountSnoc(rows: seq<Row>, r: Row, k: Key)
    ensures BlobCount(rows + [r], k) == BlobCount(rows, k) + (if r.recipient == k then 1 else 0)
    ensures ByteCount(rows + [r], k) == ByteCount(rows, k) + (if r.recipient == k then |r.envelope| else 0)
  {
    assert (rows + [r])[..|rows|] == rows;
  }

  /** What a statement leaves of an Inbox's occupancy, one row at a time. */
  lemma KeepSnocCount(p: Row -> bool, init: seq<Row>, r: Row, k: Key)
    ensures BlobCount(Keep(p, init + [r]), k)
            == BlobCount(Keep(p, init), k) + (if p(r) && r.recipient == k then 1 else 0)
    ensures ByteCount(Keep(p, init + [r]), k)
            == ByteCount(Keep(p, init), k) + (if p(r) && r.recipient == k then |r.envelope| else 0)
  {
    assert (init + [r])[..|init|] == init;
    if p(r) {
      CountSnoc(Keep(p, init), r, k);
    } else {
      assert Keep(p, init + [r]) == Keep(p, init);
    }
  }

  lemma {:induction false} KeepShrinks(p: Row -> bool, rows: seq<Row>, k: Key)
    ensures BlobCount(Keep(p, rows), k) <= BlobCount(rows, k)
    ensures ByteCount(Keep(p, rows), k) <= ByteCount(rows, k)
  {
    if rows != [] {
      var init, last := rows[..|rows| - 1], rows[|rows| - 1];
      assert rows == init + [last];
      KeepShrinks(p, init, k);
      KeepSnocCount(p, init, last, k);
    }
  }

  /** A statement that keeps all of k's rows leaves k's occupancy as it is. */
  lemma {:induction false} KeepForeign(p: Row -> bool, rows: seq<Row>, k: Key)
    requires forall r :: r in rows && r.recipient == k ==> p(r)
    ensures BlobCount(Keep(p, rows), k) == BlobCount(rows, k)
    ensures ByteCount(Keep(p, rows), k) == ByteCount(rows, k)
  {
    if rows != [] {
      var init, last := rows[..|rows| - 1], rows[|rows| - 1];
      assert rows == init + [last];
      KeepForeign(p, init, k);
      KeepSnocCount(p, init, last, k);
    }
  }

  lemma {:induction false} NoneLeft(rows: seq<Row>, k: Key)
    requires forall r :: r in rows ==> r.recipient != k
    ensures BlobCount(rows, k) == 0 && ByteCount(rows, k) == 0
  {
    if rows != [] {
      NoneLeft(rows[..|rows| - 1], k);
      assert rows[|rows| - 1] in rows;
    }
  }

  // ---------------------------------------------------------------- the statements

  /** Unix(): whole seconds, rounded towards minus infinity. */
  function Unix(nanos: int): int {
    nanos / NANOS
  }

  /** The second that a time in nanoseconds lies in: a fraction never rounds up. */
  lemma UnixIsFloor(nanos: int)
    ensures Unix(nanos) * 1_000_000_000 <= nanos < (Unix(nanos) + 1) * 1_000_000_000
  {
  }

  datatype PutResult = Stored(table: Table, row: Row) | Full | Failed

  predicate HasRoom(t: Table, k: Key, size: nat, lim: Limits) {
    && (lim.maxBlobs > 0 ==> BlobCount(t.rows, k) < lim.maxBlobs)
    && (lim.maxBytes > 0 ==> ByteCount(t.rows, k) + size <= lim.maxBytes)
  }

  /** PutWithLimits: probe and insert in one transaction.  `fault` is a database error;
      AUTOINCREMENT also fails once the largest id has been used. */
  function Put(t: Table, k: Key, envelope: Bytes, expiresAt: int, lim: Limits, fault: bool): PutResult {
    if fault then Failed
    else if !HasRoom(t, k, |envelope|, lim) then Full
    else if t.high >= MAX_ID then Failed
    else
      var row := Row(t.high + 1, k, envelope, expiresAt);
      Stored(Table(t.rows + [row], t.high + 1), row)
  }

  function PeekRows(t: Table, k: Key, after: int): seq<Row> {
    Keep((r: Row) => r.recipient == k && r.id > after, t.rows)
  }

  function ToBlobs(rows: seq<Row>): (bs: seq<Blob>)
    ensures |bs| == |rows| && forall i :: 0 <= i < |bs| ==> bs[i] == rows[i].ToBlob()
  {
    seq(|rows|, i requires 0 <= i < |rows| => rows[i].ToBlob())
  }

  /** PeekAfter */
  function PeekAfter(t: Table, k: Key, after: int): seq<Blob> {
    ToBlobs(PeekRows(t, k, after))
  }

  /** DeleteForRecipient */
  function DeleteFor(t: Table, k: Key, ids: seq<int>): Table {
    Table(Keep((r: Row) => !(r.recipient == k && r.id in ids), t.rows), t.high)
  }

  /** Reap */
  function Reap(t: Table, now: int): Table {
    Table(Keep((r: Row) => !(r.expiresAt <= Unix(now)), t.rows), t.high)
  }

  // ---------------------------------------------------------------- what they keep

  lemma PutValid(t: Table, k: Key, envelope: Bytes, expiresAt: int, lim: Limits, fault: bool)
    requires Valid(t)
    ensures var r := Put(t, k, envelope, expiresAt, lim, fault);
            r.Stored? ==> Valid(r.table) && forall q :: q in t.rows ==> q.id < r.row.id
  {
  }

  lemma KeepValid(t: Table, p: Row -> bool)
    requires Valid(t)
    ensures Valid(Table(Keep(p, t.rows), t.high))
  {
    KeepSorted(p, t.rows);
  }

  ghost predicate Increasing(bs: seq<Blob>) {
    forall i, j :: 0 <= i < j < |bs| ==> bs[i].id < bs[j].id
  }

  /** A peek returns exactly the key's rows above the mark, as blobs, in increasing order. */
  lemma PeekExact(t: Table, k: Key, after: int)
    requires Valid(t)
    ensures Increasing(PeekAfter(t, k, after))
    ensures forall b :: b in PeekAfter(t, k, after) <==>
                        exists r :: r in t.rows && r.recipient == k && r.id > after && r.ToBlob() == b
  {
    var p := (r: Row) => r.recipient == k && r.id > after;
    KeepSorted(p, t.rows);
    var rows, bs := PeekRows(t, k, after), PeekAfter(t, k, after);
    forall b | b in bs ensures exists r :: r in t.rows && r.recipient == k && r.id > after && r.ToBlob() == b {
      var i :| 0 <= i < |bs| && bs[i] == b;
      assert rows[i] in rows;
    }
    forall r | r in t.rows && r.recipient == k && r.id > after ensures r.ToBlob() in bs {
      assert r in rows;
      var i :| 0 <= i < |rows| && rows[i] == r;
      assert bs[i] == r.ToBlob();
    }
  }

  // ---------------------------------------------------------------- quotas

  ghost predicate WithinQuota(t: Table, lim: Limits) {
    forall k: Key ::
      && (lim.maxBlobs > 0 ==> BlobCount(t.rows, k) <= lim.maxBlobs)
      && (lim.maxBytes > 0 ==> ByteCount(t.rows, k) <= lim.maxBytes)
  }

  lemma PutWithinQuota(t: Table, k: Key, envelope: Bytes, expiresAt: int, lim: Limits, fault: bool)
    requires WithinQuota(t, lim)
    ensures var r := Put(t, k, envelope, expiresAt, lim, fault); r.Stored? ==> WithinQuota(r.table, lim)
  {
    var res := Put(t, k, envelope, expiresAt, lim, fault);
    if res.Stored? {
      forall l: Key
        ensures lim.maxBlobs > 0 ==> BlobCount(res.table.rows, l) <= lim.maxBlobs
        ensures lim.maxBytes > 0 ==> ByteCount(res.table.rows, l) <= lim.maxBytes
      {
        CountSnoc(t.rows, res.row, l);
      }
    }
  }

  function TotalBytes(bs: seq<Blob>): nat {
    if bs == [] then 0 else TotalBytes(bs[..|bs| - 1]) + |bs[|bs| - 1].envelope|
  }

  /** The occupancy of an Inbox is what a peek from its start returns. */
  lemma {:induction false} OccupancyIsPeek(rows: seq<Row>, k: Key)
    requires forall r :: r in rows ==> r.id > 0
    ensures var held := ToBlobs(Keep((r: Row) => r.recipient == k && r.id > 0, rows));
            BlobCount(rows, k) == |held| && ByteCount(rows, k) == TotalBytes(held)
  {
    if rows != [] {
      var p := (r: Row) => r.recipient == k && r.id > 0;
      var init, last := rows[..|rows| - 1], rows[|rows| - 1];
      assert rows == init + [last];
      OccupancyIsPeek(init, k);
      if p(last) {
        var held := ToBlobs(Keep(p, rows));
        assert held[..|held| - 1] == ToBlobs(Keep(p, init)) && held[|held| - 1] == last.ToBlob();
      } else {
        assert Keep(p, rows) == Keep(p, init);
      }
    }
  }

  /** The key's rows. */
  function RowsFor(rows: seq<Row>, k: Key): set<Row> {
    set r | r in rows && r.recipient == k
  }

  lemma RowsForSnoc(rows: seq<Row>, r: Row, k: Key)
    requires r !in rows
    ensures |RowsFor(rows + [r], k)| == |RowsFor(rows, k)| + (if r.recipient == k then 1 else 0)
  {
    assert RowsFor(rows + [r], k) == RowsFor(rows, k) + (if r.recipient == k then {r} else {});
  }

  /** ... one blob for each of them. */
  lemma {:induction false} CountIsCardinality(rows: seq<Row>, k: Key)
    requires Sorted(rows)
    ensures BlobCount(rows, k) == |RowsFor(rows, k)|
  {
    if rows == [] {
      assert RowsFor(rows, k) == {};
    } else {
      var init, last := rows[..|rows| - 1], rows[|rows| - 1];
      assert rows == init + [last];
      CountIsCardinality(init, k);
      RowsForSnoc(init, last, k);
    }
  }

  /** The limits refuse one more envelope beside these blobs. */
  predicate OverQuota(held: seq<Blob>, envelope: Bytes, lim: Limits) {
    || (lim.maxBlobs > 0 && |held| >= lim.maxBlobs)
    || (lim.maxBytes > 0 && TotalBytes(held) + |envelope| > lim.maxBytes)
  }

  /** Without a database error and with ids left: a put is refused as full exactly when the key's
      rows are as many as the blob limit or the envelope would take their bytes over the byte
      limit, and stored under the next id in every other case. */
  lemma FullExactly(t: Table, k: Key, envelope: Bytes, expiresAt: int, lim: Limits)
    requires Valid(t) && t.high < MAX_ID
    ensures var r, held := Put(t, k, envelope, expiresAt, lim, false), PeekAfter(t, k, 0);
            && |held| == |RowsFor(t.rows, k)|
            && (r.Full? <==> OverQuota(held, envelope, lim))
            && (r.Stored? <==> !OverQuota(held, envelope, lim))
            && (r.Stored? ==> r.row == Row(t.high + 1, k, envelope, expiresAt)
                              && r.table == Table(t.rows + [r.row], t.high + 1))
  {
    OccupancyIsPeek(t.rows, k);
    CountIsCardinality(t.rows, k);
  }

  /** Puts to one key, one after another, all stored. */
  predicate AllStored(t: Table, k: Key, envelopes: seq<Bytes>, expiresAt: int, lim: Limits)
    decreases |envelopes|
  {
    envelopes == [] ||
    (var r := Put(t, k, envelopes[0], expiresAt, lim, false);
     r.Stored? && AllStored(r.table, k, envelopes[1..], expiresAt, lim))
  }

  function SumOfSizes(envelopes: seq<Bytes>): nat
    decreases |envelopes|
  {
    if envelopes == [] then 0 else |envelopes[0]| + SumOfSizes(envelopes[1..])
  }

  lemma PeekAfterPut(t: Table, k: Key, row: Row)
    requires Valid(t) && row.recipient == k && row.id == t.high + 1
    ensures PeekAfter(Table(t.rows + [row], t.high + 1), k, 0) == PeekAfter(t, k, 0) + [row.ToBlob()]
  {
    var p := (r: Row) => r.recipient == k && r.id > 0;
    assert (t.rows + [row])[..|t.rows|] == t.rows;
    assert Keep(p, t.rows + [row]) == Keep(p, t.rows) + [row];
  }

  /** However many envelopes are put to one key, and whatever it holds already: they are all stored
      exactly when together with what it holds they are within both limits. */
  lemma {:induction false} AllStoredExactly(t: Table, k: Key, envelopes: seq<Bytes>, expiresAt: int, lim: Limits)
    requires Valid(t) && t.high + |envelopes| <= MAX_ID && envelopes != []
    ensures var held := PeekAfter(t, k, 0);
            AllStored(t, k, envelopes, expiresAt, lim) <==>
            && (lim.maxBlobs > 0 ==> |held| + |envelopes| <= lim.maxBlobs)
            && (lim.maxBytes > 0 ==> TotalBytes(held) + SumOfSizes(envelopes) <= lim.maxBytes)
    decreases |envelopes|
  {
    FullExactly(t, k, envelopes[0], expiresAt, lim);
    var r, rest := Put(t, k, envelopes[0], expiresAt, lim, false), envelopes[1..];
    if r.Stored? {
      PutValid(t, k, envelopes[0], expiresAt, lim, false);
      PeekAfterPut(t, k, r.row);
      var held := PeekAfter(t, k, 0);
      assert (held + [r.row.ToBlob()])[..|held|] == held;
      if rest != [] {
        AllStoredExactly(r.table, k, rest, expiresAt, lim);
      }
    }
  }

  /** In particular from an empty store. */
  lemma FreshPutsExactly(k: Key, envelopes: seq<Bytes>, expiresAt: int, lim: Limits)
    requires |envelopes| <= MAX_ID
    ensures AllStored(Empty, k, envelopes, expiresAt, lim) <==>
            && (lim.maxBlobs > 0 ==> |envelopes| <= lim.maxBlobs)
            && (lim.maxBytes > 0 ==> SumOfSizes(envelopes) <= lim.maxBytes)
  {
    if envelopes != [] {
      AllStoredExactly(Empty, k, envelopes, expiresAt, lim);
    }
  }

  lemma KeepWithinQuota(t: Table, p: Row -> bool, lim: Limits)
    requires WithinQuota(t, lim)
    ensures WithinQuota(Table(Keep(p, t.rows), t.high), lim)
  {
    forall k: Key
      ensures BlobCount(Keep(p, t.rows), k) <= BlobCount(t.rows, k)
      ensures ByteCount(Keep(p, t.rows), k) <= ByteCount(t.rows, k)
    {
      KeepShrinks(p, t.rows, k);
    }
  }

  /** No operation on one key's Inbox changes the verdict on a put to another's. */
  lemma VerdictIsLocal(t: Table, k: Key, l: Key, envelope: Bytes, expiresAt: int, ids: seq<int>, size: nat, lim: Limits)
    requires k != l
    ensures var r := Put(t, k, envelope, expiresAt, lim, false);
            r.Stored? ==> (HasRoom(r.table, l, size, lim) <==> HasRoom(t, l, size, lim))
    ensures HasRoom(DeleteFor(t, k, ids), l, size, lim) <==> HasRoom(t, l, size, lim)
  {
    var r := Put(t, k, envelope, expiresAt, lim, false);
    if r.Stored? {
      CountSnoc(t.rows, r.row, l);
    }
    KeepForeign((r: Row) => !(r.recipient == k && r.id in ids), t.rows, l);
  }

  lemma KeepNext(p: Row -> bool, rows: seq<Row>, i: nat)
    requires i < |rows|
    ensures Keep(p, rows[..i + 1]) == Keep(p, rows[..i]) + (if p(rows[i]) then [rows[i]] else [])
  {
    assert rows[..i + 1][..i] == rows[..i];
  }

  lemma ToBlobsSnoc(rows: seq<Row>, r: Row)
    ensures ToBlobs(rows + [r]) == ToBlobs(rows) + [r.ToBlob()]
  {
  }

  // ---------------------------------------------------------------- the store object

  class Store {
    var table: Table

    ghost predicate Ok() reads this { Valid(table) }

    constructor ()
      ensures Ok() && table == Empty
    {
      table := Empty;
    }

    /** The occupancy query inside the put's transaction. */
    method Room(k: Key, size: nat, lim: Limits) returns (ok: bool)
      ensures ok == HasRoom(table, k, size, lim)
    {
      if lim.maxBlobs > 0 || lim.maxBytes > 0 {
        var blobs, bytes := BlobCount(table.rows, k), ByteCount(table.rows, k);
        if lim.maxBlobs > 0 && blobs >= lim.maxBlobs {
          return false;
        }
        if lim.maxBytes > 0 && bytes + size > lim.maxBytes {
          return false;
        }
      }
      return true;
    }

    /** PutWithLimits: stores the row under a fresh id with its expiry, or changes nothing. */
    method PutWithLimits(k: Key, envelope: Bytes, now: int, ttl: int, lim: Limits, fault: bool) returns (r: PutResult)
      requires Ok()
      modifies this
      ensures Ok()
      ensures r == Put(old(table), k, envelope, Unix(now + ttl), lim, fault)
      ensures table == if r.Stored? then r.table else old(table)
      ensures r.Stored? ==> forall q :: q in old(table).rows ==> q.id < r.row.id
      ensures !fault && old(table).high < MAX_ID ==>
                (r.Full? <==> OverQuota(PeekAfter(old(table), k, 0), envelope, lim))
                && (r.Stored? <==> !OverQuota(PeekAfter(old(table), k, 0), envelope, lim))
    {
      var expiresAt := Unix(now + ttl);
      if table.high < MAX_ID {
        FullExactly(table, k, envelope, expiresAt, lim);
      }
      PutValid(table, k, envelope, expiresAt, lim, fault);
      if fault {
        return Failed;
      }
      var room := Room(k, |envelope|, lim);
      if !room {
        return Full;
      }
      if table.high >= MAX_ID {
        return Failed;
      }
      var row := Row(table.high + 1, k, envelope, expiresAt);
      table := Table(table.rows + [row], table.high + 1);
      return Stored(table, row);
    }

    /** PeekAfter: the row loop appends every matching row, oldest first. */
    method Peek(k: Key, after: int) returns (blobs: seq<Blob>)
      requires Ok()
      ensures blobs == PeekAfter(table, k, after)
    {
      blobs := [];
      var i := 0;
      var p := (r: Row) => r.recipient == k && r.id > after;
      ghost var kept: seq<Row> := [];
      while i < |table.rows|
        invariant 0 <= i <= |table.rows|
        invariant kept == Keep(p, table.rows[..i])
        invariant blobs == ToBlobs(kept)
      {
        var r := table.rows[i];
        KeepNext(p, table.rows, i);
        if r.recipient == k && r.id > after {
          ToBlobsSnoc(kept, r);
          blobs := blobs + [r.ToBlob()];
          kept := kept + [r];
        }
        i := i + 1;
      }
      assert table.rows[..i] == table.rows;
    }

    method DeleteForRecipient(k: Key, ids: seq<int>)
      requires Ok()
      modifies this
      ensures Ok() && table == DeleteFor(old(table), k, ids)
      ensures forall r :: r in table.rows <==> r in old(table).rows && !(r.recipient == k && r.id in ids)
    {
      KeepValid(table, (r: Row) => !(r.recipient == k && r.id in ids));
      table := DeleteFor(table, k, ids);
    }

    method ReapExpired(now: int)
      requires Ok()
      modifies this
      ensures Ok() && table == Reap(old(table), now)
      ensures forall r :: r in table.rows <==> r in old(table).rows && Unix(now) < r.expiresAt
    {
      KeepValid(table, (r: Row) => !(r.expiresAt <= Unix(now)));
      table := Reap(table, now);
    }
  }
}
