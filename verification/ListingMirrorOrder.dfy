/** When batched hydration keeps the row order, repeated keys included (internal/service/sync/listing_mirror.go).

    A flush writes the coordinates of its records and then clears those of its records without a position,
    and all deletes come last. So a repeated key can go wrong in two ways, and only in these. */
module ListingMirrorOrder {
  import opened Wrappers
  import opened ListingMirror

  // ---- The condition -----------------------------------------------------------------------------

  /** The records to be upserted, in row order. */
  function Records(rows: seq<Row>): seq<Record> {
    if rows == [] then [] else (if rows[0].Upsert? then [rows[0].record] else []) + Records(rows[1..])
  }

  function FlushSize(group: nat): nat { if group == 0 then 1 else group }

  /** The flush that the i-th record is in: every size records fill one. */
  function FlushOf(i: nat, size: nat): nat
    requires size > 0
  {
    if i < size then 0 else 1 + FlushOf(i - size, size)
  }

  predicate SameFlush(rows: seq<Row>, i: nat, j: nat, group: nat)
    requires i <= |rows| && j <= |rows|
  {
    FlushOf(|Records(rows[..i])|, FlushSize(group)) == FlushOf(|Records(rows[..j])|, FlushSize(group))
  }

  predicate Placed(r: Record) { RecordPoint(r).Some? }

  /** Row i is the last one that writes its key. */
  ghost predicate LastOfKey(rows: seq<Row>, i: nat) {
    i < |rows| && Writes(rows[i]) && forall j :: i < j < |rows| && Writes(rows[j]) ==>
      RowKey(rows[j]) != RowKey(rows[i])
  }

  ghost predicate NeverRemoved(rows: seq<Row>, k: Key) {
    forall j :: 0 <= j < |rows| && rows[j].Remove? ==> rows[j].key != k
  }

  ghost predicate UpsertOf(rows: seq<Row>, k: Key, j: nat) {
    j < |rows| && rows[j].Upsert? && rows[j].record.key == k
  }

  /** The last row of each key is a delete, or the key is never deleted and, if that row has a position, so
      has every upsert of the key in its flush. */
  ghost predicate OrderKept(rows: seq<Row>, group: nat) {
    forall i: nat :: LastOfKey(rows, i) ==>
      || rows[i].Remove?
      || (NeverRemoved(rows, RowKey(rows[i])) &&
          (Placed(rows[i].record) ==>
             forall j: nat :: UpsertOf(rows, RowKey(rows[i]), j) && SameFlush(rows, i, j, group) ==>
               Placed(rows[j].record)))
  }

  // ---- One key -----------------------------------------------------------------------------------

  /** What row-at-a-time application does to the listing with key k. */
  function RowsAt(p: Option<Listing>, rows: seq<Row>, k: Key): Option<Listing> {
    if rows == [] then p else
      var n := |rows| - 1;
      var q := RowsAt(p, rows[..n], k);
      if Writes(rows[n]) && RowKey(rows[n]) == k then RowResult(rows[n], q) else q
  }

  function RecordsAt(p: Option<Listing>, recs: seq<Record>, k: Key): Option<Listing> {
    if recs == [] then p else
      var n := |recs| - 1;
      var q := RecordsAt(p, recs[..n], k);
      if recs[n].key == k then RowResult(Upsert(recs[n]), q) else q
  }

  /** The listing without its coordinates. */
  function Bare(p: Option<Listing>): Option<Listing> {
    if p.Some? then Some(p.value.(coordinates := None)) else None
  }

  lemma {:induction false} ApplyRowsAt(t: Table, rows: seq<Row>, k: Key)
    ensures Get(ApplyRows(t, rows), k) == RowsAt(Get(t, k), rows, k)
  {
    if rows != [] { ApplyRowsAt(t, rows[..|rows| - 1], k); }
  }

  ghost predicate LastRecord(recs: seq<Record>, k: Key, i: nat) {
    i < |recs| && recs[i].key == k && forall j :: i < j < |recs| ==> recs[j].key != k
  }

  ghost predicate AllPlaced(recs: seq<Record>, k: Key) {
    forall j :: 0 <= j < |recs| && recs[j].key == k ==> Placed(recs[j])
  }

  /** Coordinates aside, a flush and the row order do the same, whatever coordinates they start from. */
  lemma {:induction false} UpsertAllAt(t: Table, recs: seq<Record>, k: Key, p: Option<Listing>)
    requires Bare(p) == Bare(Get(t, k))
    ensures Bare(Get(UpsertAll(t, recs), k)) == Bare(RecordsAt(p, recs, k))
    ensures (forall j :: 0 <= j < |recs| ==> recs[j].key != k) ==> Get(UpsertAll(t, recs), k) == Get(t, k)
    ensures (exists j :: 0 <= j < |recs| && recs[j].key == k) ==> Get(UpsertAll(t, recs), k).Some?
  {
    if recs != [] {
      var n := |recs| - 1;
      UpsertAllAt(t, recs[..n], k, p);
      if j :| 0 <= j < |recs| && recs[j].key == k && j < n { assert recs[..n][j].key == k; }
    }
  }

  lemma {:induction false} PlaceAllBare(t: Table, recs: seq<Record>, k: Key)
    ensures Bare(Get(PlaceAll(t, recs), k)) == Bare(Get(t, k))
    ensures (forall j :: 0 <= j < |recs| ==> recs[j].key != k) ==> Get(PlaceAll(t, recs), k) == Get(t, k)
  {
    if recs != [] { PlaceAllBare(t, recs[..|recs| - 1], k); }
  }

  lemma {:induction false} PlaceAllLast(t: Table, recs: seq<Record>, k: Key, i: nat)
    requires k in t && LastRecord(recs, k, i) && Placed(recs[i])
    ensures k in PlaceAll(t, recs) && PlaceAll(t, recs)[k].coordinates == RecordPoint(recs[i])
  {
    var n := |recs| - 1;
    PlaceAllBare(t, recs[..n], k);
    assert Get(t, k).Some? && Bare(Get(PlaceAll(t, recs[..n]), k)).Some?;
    if i < n { PlaceAllLast(t, recs[..n], k, i); }
  }

  /** A flush, key by key: coordinates end at the last record's position, or cleared if any record of the key
      in the flush has none. */
  lemma FlushAt(t: Table, recs: seq<Record>, k: Key, i: nat, p: Option<Listing>)
    requires LastRecord(recs, k, i) && Bare(p) == Bare(Get(t, k))
    ensures Get(Flush(t, recs), k).Some? && Bare(Get(Flush(t, recs), k)) == Bare(RecordsAt(p, recs, k))
    ensures Get(Flush(t, recs), k).value.coordinates == if AllPlaced(recs, k) then RecordPoint(recs[i]) else None
  {
    var u := UpsertAll(t, recs);
    UpsertAllAt(t, recs, k, p);
    PlaceAllBare(u, recs, k);
    assert Get(u, k).Some?;
    if AllPlaced(recs, k) {
      PlaceAllLast(u, recs, k, i);
      assert k !in UnplacedKeys(recs);
    } else {
      var j :| 0 <= j < |recs| && recs[j].key == k && !Placed(recs[j]);
      assert k in UnplacedKeys(recs);
    }
  }

  lemma FlushPasses(t: Table, recs: seq<Record>, k: Key)
    requires forall j :: 0 <= j < |recs| ==> recs[j].key != k
    ensures Get(Flush(t, recs), k) == Get(t, k)
  {
    UpsertAllAt(t, recs, k, Get(t, k));
    PlaceAllBare(UpsertAll(t, recs), recs, k);
    assert k !in UnplacedKeys(recs);
  }

  // ---- All flushes -------------------------------------------------------------------------------

  /** Full flushes first, and what is left at the end. */
  function FlushRun(t: Table, recs: seq<Record>, size: nat): Table
    requires size > 0
    decreases |recs|
  {
    if |recs| < size then Flush(t, recs) else FlushRun(Flush(t, recs[..size]), recs[size..], size)
  }

  lemma {:induction false} FlushedUpsertsRun(t: Table, pending: seq<Record>, rows: seq<Row>, group: nat)
    requires |pending| < FlushSize(group)
    ensures FlushedUpserts(t, pending, rows, group) == FlushRun(t, pending + Records(rows), FlushSize(group))
    decreases |rows|, 1
  {
    if rows == [] {
      assert pending + [] == pending;
    } else if !rows[0].Upsert? {
      FlushedUpsertsRun(t, pending, rows[1..], group);
      assert Records(rows) == Records(rows[1..]);
    } else {
      UpsertRun(t, pending, rows, group);
    }
  }

  lemma {:induction false} UpsertRun(t: Table, pending: seq<Record>, rows: seq<Row>, group: nat)
    requires |pending| < FlushSize(group) && rows != [] && rows[0].Upsert?
    ensures FlushedUpserts(t, pending, rows, group) == FlushRun(t, pending + Records(rows), FlushSize(group))
    decreases |rows|, 0
  {
    var grown, rest := pending + [rows[0].record], Records(rows[1..]);
    assert pending + Records(rows) == grown + rest;
    if |grown| >= group {
      FlushedUpsertsRun(Flush(t, grown), [], rows[1..], group);
      assert [] + rest == rest;
      FullFlush(t, grown, rest);
    } else {
      FlushedUpsertsRun(t, grown, rows[1..], group);
    }
  }

  lemma FullFlush(t: Table, first: seq<Record>, rest: seq<Record>)
    requires first != []
    ensures FlushRun(t, first + rest, |first|) == FlushRun(Flush(t, first), rest, |first|)
  {
    assert (first + rest)[..|first|] == first && (first + rest)[|first|..] == rest;
  }

  lemma {:induction false} RecordsAtConcat(p: Option<Listing>, a: seq<Record>, b: seq<Record>, k: Key)
    ensures RecordsAt(p, a + b, k) == RecordsAt(RecordsAt(p, a, k), b, k)
  {
    if b == [] {
      assert a + b == a;
    } else {
      var n := |b| - 1;
      RecordsAtConcat(p, a, b[..n], k);
      assert (a + b)[..|a + b| - 1] == a + b[..n];
    }
  }

  lemma {:induction false} RecordsAtPasses(p: Option<Listing>, recs: seq<Record>, k: Key)
    requires forall j :: 0 <= j < |recs| ==> recs[j].key != k
    ensures RecordsAt(p, recs, k) == p
  {
    if recs != [] { RecordsAtPasses(p, recs[..|recs| - 1], k); }
  }

  /** Every record of key k in the flush of record i has a position. */
  ghost predicate FlushPlaced(recs: seq<Record>, k: Key, i: nat, size: nat)
    requires size > 0
  {
    forall j :: 0 <= j < |recs| && recs[j].key == k && FlushOf(j, size) == FlushOf(i, size) ==> Placed(recs[j])
  }

  ghost predicate RunMatches(result: Option<Listing>, p: Option<Listing>, recs: seq<Record>, k: Key, i: nat, size: nat)
    requires size > 0 && i < |recs|
  {
    && result.Some? && Bare(result) == Bare(RecordsAt(p, recs, k))
    && result.value.coordinates == if FlushPlaced(recs, k, i, size) then RecordPoint(recs[i]) else None
  }

  lemma {:induction false} RunPasses(t: Table, recs: seq<Record>, size: nat, k: Key)
    requires size > 0 && forall j :: 0 <= j < |recs| ==> recs[j].key != k
    ensures Get(FlushRun(t, recs, size), k) == Get(t, k)
    decreases |recs|
  {
    if |recs| < size {
      FlushPasses(t, recs, k);
    } else {
      FlushPasses(t, recs[..size], k);
      RunPasses(Flush(t, recs[..size]), recs[size..], size, k);
    }
  }

  /** Only the flush of the last record decides the coordinates. */
  lemma {:induction false} RunAt(t: Table, recs: seq<Record>, size: nat, k: Key, i: nat, p: Option<Listing>)
    requires size > 0 && LastRecord(recs, k, i) && Bare(p) == Bare(Get(t, k))
    ensures RunMatches(Get(FlushRun(t, recs, size), k), p, recs, k, i, size)
    decreases |recs|
  {
    if |recs| < size {
      FlushAt(t, recs, k, i, p);
      OneFlush(recs, k, i, size);
    } else {
      RunStep(t, recs, size, k, i, p);
    }
  }

  lemma OneFlush(recs: seq<Record>, k: Key, i: nat, size: nat)
    requires |recs| < size && i < |recs|
    ensures FlushPlaced(recs, k, i, size) <==> AllPlaced(recs, k)
  {
    assert forall j: nat :: j < |recs| ==> FlushOf(j, size) == 0;
    assert FlushOf(i, size) == 0;
    if FlushPlaced(recs, k, i, size) {
      forall j | 0 <= j < |recs| && recs[j].key == k ensures Placed(recs[j]) { assert FlushOf(j, size) == 0; }
    }
  }

  lemma {:induction false} RunStep(t: Table, recs: seq<Record>, size: nat, k: Key, i: nat, p: Option<Listing>)
    requires 0 < size <= |recs| && LastRecord(recs, k, i) && Bare(p) == Bare(Get(t, k))
    ensures RunMatches(Get(FlushRun(t, recs, size), k), p, recs, k, i, size)
    decreases |recs|, 0
  {
    var first, rest := recs[..size], recs[size..];
    assert recs == first + rest;
    var u := Flush(t, first);
    RecordsAtConcat(p, first, rest, k);
    if i < size {
      assert forall j :: 0 <= j < |rest| ==> rest[j].key != k;
      FlushAt(t, first, k, i, p);
      RunPasses(u, rest, size, k);
      RecordsAtPasses(RecordsAt(p, first, k), rest, k);
      FirstFlush(recs, k, i, size);
    } else {
      FirstFlushAt(t, first, k, p);
      RunAt(u, rest, size, k, i - size, RecordsAt(p, first, k));
      LaterFlush(recs, k, i, size);
    }
  }

  lemma FirstFlushAt(t: Table, recs: seq<Record>, k: Key, p: Option<Listing>)
    requires Bare(p) == Bare(Get(t, k))
    ensures Bare(Get(Flush(t, recs), k)) == Bare(RecordsAt(p, recs, k))
  {
    if j :| 0 <= j < |recs| && recs[j].key == k {
      var i := LastIndex(recs, k, j);
      FlushAt(t, recs, k, i, p);
    } else {
      FlushPasses(t, recs, k);
      RecordsAtPasses(p, recs, k);
    }
  }

  lemma LastIndex(recs: seq<Record>, k: Key, j: nat) returns (i: nat)
    requires j < |recs| && recs[j].key == k
    ensures LastRecord(recs, k, i)
    decreases |recs| - j
  {
    if m :| j < m < |recs| && recs[m].key == k {
      i := LastIndex(recs, k, m);
    } else {
      i := j;
    }
  }

  lemma FirstFlush(recs: seq<Record>, k: Key, i: nat, size: nat)
    requires i < size <= |recs| && LastRecord(recs, k, i)
    ensures FlushPlaced(recs, k, i, size) <==> AllPlaced(recs[..size], k)
  {
    var first := recs[..size];
    assert FlushOf(i, size) == 0;
    if FlushPlaced(recs, k, i, size) {
      forall j | 0 <= j < size && first[j].key == k
        ensures Placed(first[j])
      {
        assert FlushOf(j, size) == 0 && recs[j] == first[j];
      }
    }
    if AllPlaced(first, k) {
      forall j | 0 <= j < |recs| && recs[j].key == k && FlushOf(j, size) == 0
        ensures Placed(recs[j])
      {
        assert recs[j] == first[j];
      }
    }
  }

  lemma LaterFlush(recs: seq<Record>, k: Key, i: nat, size: nat)
    requires 0 < size <= i < |recs|
    ensures FlushPlaced(recs, k, i, size) <==> FlushPlaced(recs[size..], k, i - size, size)
  {
    var rest := recs[size..];
    if FlushPlaced(recs, k, i, size) {
      forall j | 0 <= j < |rest| && rest[j].key == k && FlushOf(j, size) == FlushOf(i - size, size)
        ensures Placed(rest[j])
      {
        assert FlushOf(j + size, size) == FlushOf(i, size) && recs[j + size] == rest[j];
      }
    }
    if FlushPlaced(rest, k, i - size, size) {
      forall j | 0 <= j < |recs| && recs[j].key == k && FlushOf(j, size) == FlushOf(i, size) ensures Placed(recs[j]) {
        assert j >= size && FlushOf(j - size, size) == FlushOf(i - size, size) && rest[j - size] == recs[j];
      }
    }
  }

  // ---- Rows and records --------------------------------------------------------------------------

  lemma {:induction false} RecordsConcat(a: seq<Row>, b: seq<Row>)
    ensures Records(a + b) == Records(a) + Records(b)
  {
    if a == [] {
      assert a + b == b;
    } else {
      RecordsConcat(a[1..], b);
      ConcatStep(a, b);
    }
  }

  lemma ConcatStep(a: seq<Row>, b: seq<Row>)
    requires a != [] && Records(a[1..] + b) == Records(a[1..]) + Records(b)
    ensures Records(a + b) == Records(a) + Records(b)
  {
    var rest := a[1..] + b;
    assert (a + b)[1..] == rest && (a + b)[0] == a[0];
    RecordsCons(a[0], a + b, rest);
    RecordsCons(a[0], a, a[1..]);
    Associative(if a[0].Upsert? then [a[0].record] else [], Records(a[1..]), Records(b));
  }

  lemma Associative(a: seq<Record>, b: seq<Record>, c: seq<Record>)
    ensures a + (b + c) == (a + b) + c
  {
  }

  lemma RecordsCons(r: Row, rows: seq<Row>, rest: seq<Row>)
    requires rows != [] && rows[0] == r && rows[1..] == rest
    ensures Records(rows) == (if r.Upsert? then [r.record] else []) + Records(rest)
  {
  }

  /** The record of row j stands after those of the rows before it. */
  lemma RecordOfRow(rows: seq<Row>, j: nat)
    requires j < |rows| && rows[j].Upsert?
    ensures |Records(rows[..j])| < |Records(rows)| && Records(rows)[|Records(rows[..j])|] == rows[j].record
  {
    RecordsConcat(rows[..j], rows[j..]);
    assert rows == rows[..j] + rows[j..];
  }

  lemma {:induction false} RowOfRecord(rows: seq<Row>, n: nat) returns (j: nat)
    requires n < |Records(rows)|
    ensures j < |rows| && rows[j].Upsert? && |Records(rows[..j])| == n
  {
    if rows[0].Upsert? && n == 0 {
      j := 0;
    } else {
      j := RowOfRecord(rows[1..], if rows[0].Upsert? then n - 1 else n);
      assert rows[..j + 1][1..] == rows[1..][..j];
      j := j + 1;
    }
  }

  lemma RecordsBefore(rows: seq<Row>, i: nat, j: nat)
    requires i < j <= |rows| && rows[i].Upsert?
    ensures |Records(rows[..i])| < |Records(rows[..j])|
  {
    RecordOfRow(rows[..j], i);
    assert rows[..j][..i] == rows[..i];
  }

  lemma LastRowIsLastRecord(rows: seq<Row>, i: nat)
    requires LastOfKey(rows, i) && rows[i].Upsert?
    ensures LastRecord(Records(rows), RowKey(rows[i]), |Records(rows[..i])|)
  {
    var recs, n := Records(rows), |Records(rows[..i])|;
    RecordOfRow(rows, i);
    forall m: nat | n < m < |recs| ensures recs[m].key != RowKey(rows[i]) {
      var j := RowOfRecord(rows, m);
      RecordOfRow(rows, j);
      if j < i { RecordsBefore(rows, j, i); }
      assert Writes(rows[j]);
    }
  }

  lemma FlushPlacedRows(rows: seq<Row>, i: nat, group: nat)
    requires i < |rows| && rows[i].Upsert?
    ensures FlushPlaced(Records(rows), RowKey(rows[i]), |Records(rows[..i])|, FlushSize(group)) <==>
      forall j: nat :: UpsertOf(rows, RowKey(rows[i]), j) && SameFlush(rows, i, j, group) ==> Placed(rows[j].record)
  {
    var recs, k, n, size := Records(rows), RowKey(rows[i]), |Records(rows[..i])|, FlushSize(group);
    if FlushPlaced(recs, k, n, size) {
      forall j: nat | UpsertOf(rows, k, j) && SameFlush(rows, i, j, group)
        ensures Placed(rows[j].record)
      {
        RecordOfRow(rows, j);
      }
    }
    if forall j: nat :: UpsertOf(rows, k, j) && SameFlush(rows, i, j, group) ==> Placed(rows[j].record) {
      forall m: nat | m < |recs| && recs[m].key == k && FlushOf(m, size) == FlushOf(n, size) ensures Placed(recs[m]) {
        var j := RowOfRecord(rows, m);
        RecordOfRow(rows, j);
        assert UpsertOf(rows, k, j) && SameFlush(rows, i, j, group);
      }
    }
  }

  lemma {:induction false} RecordsSnoc(rows: seq<Row>, last: Row)
    ensures Records(rows + [last]) == Records(rows) + (if last.Upsert? then [last.record] else [])
  {
    RecordsConcat(rows, [last]);
    assert [last][1..] == [];
  }

  lemma RecordsAtSnoc(p: Option<Listing>, recs: seq<Record>, last: Record, k: Key)
    ensures RecordsAt(p, recs + [last], k) ==
      if last.key == k then RowResult(Upsert(last), RecordsAt(p, recs, k)) else RecordsAt(p, recs, k)
  {
    assert (recs + [last])[..|recs|] == recs;
  }

  lemma RowsAtStep(p: Option<Listing>, rows: seq<Row>, last: Row, k: Key)
    requires RowsAt(p, rows, k) == RecordsAt(p, Records(rows), k) && (last.Remove? ==> last.key != k)
    ensures RowsAt(p, rows + [last], k) == RecordsAt(p, Records(rows + [last]), k)
  {
    assert (rows + [last])[..|rows|] == rows;
    RecordsSnoc(rows, last);
    if last.Upsert? {
      RecordsAtSnoc(p, Records(rows), last.record, k);
      assert last == Upsert(last.record);
    } else {
      assert Records(rows) + [] == Records(rows);
    }
  }

  /** Without deletes of k only the records matter to its listing. */
  lemma {:induction false} RowsAtRecords(p: Option<Listing>, rows: seq<Row>, k: Key)
    requires NeverRemoved(rows, k)
    ensures RowsAt(p, rows, k) == RecordsAt(p, Records(rows), k)
  {
    if rows != [] {
      var n := |rows| - 1;
      RowsAtRecords(p, rows[..n], k);
      RowsAtStep(p, rows[..n], rows[n], k);
      assert rows == rows[..n] + [rows[n]];
    }
  }

  lemma {:induction false} RowsAtLast(p: Option<Listing>, rows: seq<Row>, i: nat)
    requires LastOfKey(rows, i)
    ensures RowsAt(p, rows, RowKey(rows[i])).Some? <==> rows[i].Upsert?
    ensures rows[i].Upsert? ==> RowsAt(p, rows, RowKey(rows[i])).value.coordinates == RecordPoint(rows[i].record)
  {
    if i < |rows| - 1 { RowsAtLast(p, rows[..|rows| - 1], i); }
  }

  lemma {:induction false} RowsAtPasses(p: Option<Listing>, rows: seq<Row>, k: Key)
    requires forall j :: 0 <= j < |rows| && Writes(rows[j]) ==> RowKey(rows[j]) != k
    ensures RowsAt(p, rows, k) == p
  {
    if rows != [] { RowsAtPasses(p, rows[..|rows| - 1], k); }
  }

  // ---- The exact condition -----------------------------------------------------------------------

  ghost predicate KeyKept(rows: seq<Row>, group: nat, i: nat)
    requires i < |rows| && Writes(rows[i])
  {
    || rows[i].Remove?
    || (NeverRemoved(rows, RowKey(rows[i])) &&
        (Placed(rows[i].record) ==> FlushPlaced(Records(rows), RowKey(rows[i]), |Records(rows[..i])|,
          FlushSize(group))))
  }

  lemma UpsertedKeyAgrees(t: Table, rows: seq<Row>, group: nat, i: nat)
    requires LastOfKey(rows, i) && rows[i].Upsert? && NeverRemoved(rows, RowKey(rows[i]))
    ensures Get(Hydrated(t, rows, group), RowKey(rows[i])) == Get(ApplyRows(t, rows), RowKey(rows[i])) <==>
      KeyKept(rows, group, i)
  {
    var k, recs, n, size := RowKey(rows[i]), Records(rows), |Records(rows[..i])|, FlushSize(group);
    var h := Get(Hydrated(t, rows, group), k);
    FlushedUpsertsRun(t, [], rows, group);
    assert [] + recs == recs;
    LastRowIsLastRecord(rows, i);
    RecordOfRow(rows, i);
    RunAt(t, recs, size, k, n, Get(t, k));
    assert k !in RemovedKeys(rows);
    assert h == Get(FlushRun(t, recs, size), k);
    ApplyRowsAt(t, rows, k);
    RowsAtRecords(Get(t, k), rows, k);
    RowsAtLast(Get(t, k), rows, i);
    SameListing(h.value, RowsAt(Get(t, k), rows, k).value);
  }

  lemma SameListing(a: Listing, b: Listing)
    requires Bare(Some(a)) == Bare(Some(b))
    ensures a == b <==> a.coordinates == b.coordinates
  {
    assert a == a.(coordinates := None).(coordinates := a.coordinates);
    assert b == b.(coordinates := None).(coordinates := b.coordinates);
  }

  /** For the key of its last row, the listing is as in row order exactly under the condition. */
  lemma KeyAgrees(t: Table, rows: seq<Row>, group: nat, i: nat)
    requires LastOfKey(rows, i)
    ensures Get(Hydrated(t, rows, group), RowKey(rows[i])) == Get(ApplyRows(t, rows), RowKey(rows[i])) <==>
      KeyKept(rows, group, i)
  {
    var k := RowKey(rows[i]);
    if rows[i].Upsert? && NeverRemoved(rows, k) {
      UpsertedKeyAgrees(t, rows, group, i);
    } else {
      ApplyRowsAt(t, rows, k);
      RowsAtLast(Get(t, k), rows, i);
      if j :| 0 <= j < |rows| && rows[j].Remove? && rows[j].key == k { assert k in RemovedKeys(rows); }
    }
  }

  /** A key that no row writes keeps its listing either way. */
  lemma OtherKeyAgrees(t: Table, rows: seq<Row>, group: nat, k: Key)
    requires forall j :: 0 <= j < |rows| && Writes(rows[j]) ==> RowKey(rows[j]) != k
    ensures Get(Hydrated(t, rows, group), k) == Get(ApplyRows(t, rows), k)
  {
    var recs := Records(rows);
    FlushedUpsertsRun(t, [], rows, group);
    assert [] + recs == recs;
    forall m: nat | m < |recs| ensures recs[m].key != k {
      var j := RowOfRecord(rows, m);
      RecordOfRow(rows, j);
    }
    RunPasses(t, recs, FlushSize(group), k);
    ApplyRowsAt(t, rows, k);
    RowsAtPasses(Get(t, k), rows, k);
  }

  lemma LastRowOf(rows: seq<Row>, k: Key, j: nat) returns (i: nat)
    requires j < |rows| && Writes(rows[j]) && RowKey(rows[j]) == k
    ensures LastOfKey(rows, i) && RowKey(rows[i]) == k
    decreases |rows| - j
  {
    if m :| j < m < |rows| && Writes(rows[m]) && RowKey(rows[m]) == k {
      i := LastRowOf(rows, k, m);
    } else {
      i := j;
    }
  }

  lemma KeyKeptRows(rows: seq<Row>, group: nat)
    ensures OrderKept(rows, group) <==> forall i: nat :: LastOfKey(rows, i) ==> KeyKept(rows, group, i)
  {
    forall i: nat | LastOfKey(rows, i) && rows[i].Upsert?
      ensures FlushPlaced(Records(rows), RowKey(rows[i]), |Records(rows[..i])|, FlushSize(group)) <==>
        forall j: nat :: UpsertOf(rows, RowKey(rows[i]), j) && SameFlush(rows, i, j, group) ==> Placed(rows[j].record)
    {
      FlushPlacedRows(rows, i, group);
    }
  }

  /** Batched hydration is row-at-a-time application exactly when the order is kept, for every table, every
      list of rows and every group size. The condition reads only the rows and the group size. */
  lemma HydratedIffOrderKept(t: Table, rows: seq<Row>, group: nat)
    ensures Hydrated(t, rows, group) == ApplyRows(t, rows) <==> OrderKept(rows, group)
  {
    KeyKeptRows(rows, group);
    var h, a := Hydrated(t, rows, group), ApplyRows(t, rows);
    if h == a {
      forall i: nat | LastOfKey(rows, i) ensures KeyKept(rows, group, i) { KeyAgrees(t, rows, group, i); }
    }
    if forall i: nat :: LastOfKey(rows, i) ==> KeyKept(rows, group, i) {
      forall k ensures Get(h, k) == Get(a, k) {
        if j :| 0 <= j < |rows| && Writes(rows[j]) && RowKey(rows[j]) == k {
          var i := LastRowOf(rows, k, j);
          KeyAgrees(t, rows, group, i);
        } else {
          OtherKeyAgrees(t, rows, group, k);
        }
      }
      SameLookups(h, a);
    }
  }

  /** The condition that serves every group size: all upserts of the key count. */
  ghost predicate AlwaysKept(rows: seq<Row>) {
    forall i: nat :: LastOfKey(rows, i) ==>
      || rows[i].Remove?
      || (NeverRemoved(rows, RowKey(rows[i])) &&
          (Placed(rows[i].record) ==> forall j: nat :: UpsertOf(rows, RowKey(rows[i]), j) ==> Placed(rows[j].record)))
  }

  lemma {:induction false} RecordsLength(rows: seq<Row>)
    ensures |Records(rows)| <= |rows|
  {
    if rows != [] { RecordsLength(rows[1..]); }
  }

  /** Rows hydrate in order whatever the group size exactly when they do with one flush for all. */
  lemma HydratedIffAlwaysKept(t: Table, rows: seq<Row>)
    ensures (forall group: nat :: Hydrated(t, rows, group) == ApplyRows(t, rows)) <==> AlwaysKept(rows)
  {
    if AlwaysKept(rows) {
      forall group: nat ensures Hydrated(t, rows, group) == ApplyRows(t, rows) { HydratedIffOrderKept(t, rows, group); }
    }
    if forall group: nat :: Hydrated(t, rows, group) == ApplyRows(t, rows) {
      var group := |rows| + 1;
      HydratedIffOrderKept(t, rows, group);
      forall i: nat, j: nat | i < |rows| && j < |rows| ensures SameFlush(rows, i, j, group) {
        RecordsLength(rows[..i]);
        RecordsLength(rows[..j]);
      }
    }
  }

  /** Repeated keys in a list of two: a delete overtakes the upsert after it and not the one before it, and in one
      flush an upsert without a position clears that of the next. */
  lemma DuplicateKeyShapes(t: Table, rec: Record, next: Record, group: nat)
    requires next.key == rec.key
    ensures Hydrated(t, [Remove(rec.key), Upsert(rec)], group) != ApplyRows(t, [Remove(rec.key), Upsert(rec)])
    ensures Hydrated(t, [Upsert(rec), Remove(rec.key)], group) == ApplyRows(t, [Upsert(rec), Remove(rec.key)])
    ensures !Placed(rec) && Placed(next) ==>
      (Hydrated(t, [Upsert(rec), Upsert(next)], group) == ApplyRows(t, [Upsert(rec), Upsert(next)]) <==> group < 2)
  {
    var a, b, c := [Remove(rec.key), Upsert(rec)], [Upsert(rec), Remove(rec.key)], [Upsert(rec), Upsert(next)];
    HydratedIffOrderKept(t, a, group);
    HydratedIffOrderKept(t, b, group);
    HydratedIffOrderKept(t, c, group);
    assert LastOfKey(a, 1) && a[0].Remove?;
    assert !LastOfKey(b, 0);
    if !Placed(rec) && Placed(next) {
      assert LastOfKey(c, 1) && !LastOfKey(c, 0);
      assert c[..0] == [] && c[..1] == [Upsert(rec)] && [Upsert(rec)][1..] == [];
      assert SameFlush(c, 1, 0, group) <==> group >= 2;
      assert UpsertOf(c, rec.key, 0);
      assert SameFlush(c, 1, 1, group);
    }
  }
}
