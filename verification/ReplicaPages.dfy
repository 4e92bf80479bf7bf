/** StorePage and RowsForChunk (internal/service/sync/replica_page.go): a fetched page is cut into
    chunks, and each chunk is later hydrated by its own job.

    gzip and base64 are inverse pairs and are left out: a part is the rows it encodes. */
module ReplicaPages {
  import opened ListingMirror

  const DEFAULT_CHUNK := 50

  function Flatten(parts: seq<seq<Row>>): seq<Row> {
    if parts == [] then [] else Flatten(parts[..|parts| - 1]) + parts[|parts| - 1]
  }

  /** The first row position of chunk i (counted from 0). */
  function Offset(parts: seq<seq<Row>>, i: nat): nat
    requires i <= |parts|
  {
    |Flatten(parts[..i])|
  }

  ghost function ChunkPositions(parts: seq<seq<Row>>, i: nat): (s: set<nat>)
    requires i < |parts|
  {
    Positions(Offset(parts, i) + |parts[i]|) - Positions(Offset(parts, i))
  }

  lemma {:induction false} FlattenPrefix(parts: seq<seq<Row>>, i: nat)
    requires i <= |parts|
    ensures Flatten(parts[..i]) <= Flatten(parts)
    decreases |parts| - i
  {
    if i == |parts| {
      assert parts[..i] == parts;
    } else {
      FlattenPrefix(parts, i + 1);
      assert parts[..i + 1][..i] == parts[..i];
      assert Flatten(parts[..i + 1]) == Flatten(parts[..i]) + parts[i];
    }
  }

  /** part is the stretch of rows that starts at off. */
  ghost predicate StretchOf(part: seq<Row>, rows: seq<Row>, off: nat) {
    off + |part| <= |rows| && forall j :: 0 <= j < |part| ==> part[j] == rows[off + j]
  }

  lemma ChunkIsStretch(parts: seq<seq<Row>>, i: nat)
    requires i < |parts|
    ensures StretchOf(parts[i], Flatten(parts), Offset(parts, i))
  {
    FlattenPrefix(parts, i + 1);
    var upto, before := Flatten(parts[..i + 1]), Flatten(parts[..i]);
    assert parts[..i + 1][..i] == parts[..i];
    assert upto == before + parts[i];
    assert forall j :: 0 <= j < |parts[i]| ==> upto[|before| + j] == parts[i][j];
  }

  /** Every row position belongs to some chunk. */
  lemma {:induction false} SomeChunkHolds(parts: seq<seq<Row>>, p: nat) returns (i: nat)
    requires p < |Flatten(parts)|
    ensures i < |parts| && p in ChunkPositions(parts, i)
  {
    var n := |parts| - 1;
    if p < |Flatten(parts[..n])| {
      i := SomeChunkHolds(parts[..n], p);
      assert parts[..n][..i] == parts[..i];
    } else {
      i := n;
    }
  }

  // ---- Storing and reading -------------------------------------------------------------------

  /** The chunk loop of StorePage: consecutive chunks of at most chunkSize rows that together are the page. */
  method StorePage(rows: seq<Row>, chunkSize: int) returns (parts: seq<seq<Row>>)
    ensures Flatten(parts) == rows
    ensures var size := if chunkSize <= 0 then DEFAULT_CHUNK else chunkSize;
      && (forall i :: 0 <= i < |parts| ==> 0 < |parts[i]| <= size)
      && (forall i :: 0 <= i < |parts| - 1 ==> |parts[i]| == size)
  {
    var size := if chunkSize <= 0 then DEFAULT_CHUNK else chunkSize;
    parts := [];
    var i := 0;
    while i < |rows|
      invariant 0 <= i && Flatten(parts) == rows[..if i < |rows| then i else |rows|]
      invariant forall j :: 0 <= j < |parts| ==> 0 < |parts[j]| <= size
      invariant forall j :: 0 <= j < |parts| && (i < |rows| || j < |parts| - 1) ==> |parts[j]| == size
    {
      var end := i + size;
      if end > |rows| {
        end := |rows|;
      }
      var before := parts;
      parts := parts + [rows[i..end]];
      assert parts[..|before|] == before;
      i := i + size;
    }
    assert rows[..|rows|] == rows;
  }

  datatype ChunkRows = OutOfRange | Rows(rows: seq<Row>)

  /** RowsForChunk: chunk indices count from 1. */
  function RowsForChunk(parts: seq<seq<Row>>, index: int): (r: ChunkRows)
    ensures r.Rows? ==> 1 <= index <= |parts| && r.rows == parts[index - 1]
    ensures r.Rows? ==> StretchOf(r.rows, Flatten(parts), Offset(parts, index - 1))
    ensures r.OutOfRange? ==> index < 1 || index > |parts|
  {
    if index < 1 || index > |parts| then OutOfRange else
      ChunkIsStretch(parts, index - 1);
      Rows(parts[index - 1])
  }

  // ---- Chunks in any order -------------------------------------------------------------------

  /** The page's own listings: rows at the given positions are written, the other rows' listings are
      as in the base table. Listings of other keys are not mentioned. */
  ghost predicate WrittenOnPage(base: Table, rows: seq<Row>, some: set<nat>, t: Table) {
    forall i :: 0 <= i < |rows| && Writes(rows[i]) ==>
      var k := RowKey(rows[i]);
      Get(t, k) == if i in some then RowResult(rows[i], Get(base, k)) else Get(base, k)
  }

  /** Writing some rows of one chunk moves those positions to the written side. */
  lemma ChunkWriteOnPage(base: Table, rows: seq<Row>, some: set<nat>, t: Table,
                         part: seq<Row>, off: nat, sub: set<nat>, t': Table)
    requires DistinctKeys(rows) && StretchOf(part, rows, off)
    requires WrittenOnPage(base, rows, some, t) && Written(t, part, sub, t')
    ensures WrittenOnPage(base, rows, some + Shift(sub, off), t')
  {
    forall i | 0 <= i < |rows| && Writes(rows[i])
      ensures Get(t', RowKey(rows[i])) ==
              if i in some + Shift(sub, off)
              then RowResult(rows[i], Get(base, RowKey(rows[i])))
              else Get(base, RowKey(rows[i]))
    {
      var k := RowKey(rows[i]);
      if i in Shift(sub, off) {
        var j :| j in sub && j + off == i;
        assert part[j] == rows[i];
        RowResultIdempotent(rows[i], Get(base, k));
      } else {
        KeyElsewhere(rows, part, off, sub, i);
        assert Get(t', k) == Get(t, k);
      }
    }
  }

  lemma KeyElsewhere(rows: seq<Row>, part: seq<Row>, off: nat, sub: set<nat>, i: nat)
    requires DistinctKeys(rows) && StretchOf(part, rows, off)
    requires i < |rows| && Writes(rows[i]) && i !in Shift(sub, off) && forall j :: j in sub ==> j < |part|
    ensures forall j :: j in sub && Writes(part[j]) ==> RowKey(part[j]) != RowKey(rows[i])
  {
    forall j | j in sub && Writes(part[j]) ensures RowKey(part[j]) != RowKey(rows[i]) {
      var p := off + j;
      assert part[j] == rows[p] && p in Shift(sub, off);
      if p < i { assert RowKey(rows[p]) != RowKey(rows[i]); } else { assert RowKey(rows[i]) != RowKey(rows[p]); }
    }
  }

  function Shift(s: set<nat>, off: nat): set<nat> {
    set i | i in s :: i + off
  }

  lemma ShiftedPositions(parts: seq<seq<Row>>, c: nat)
    requires c < |parts|
    ensures Shift(Positions(|parts[c]|), Offset(parts, c)) == ChunkPositions(parts, c)
  {
    var off := Offset(parts, c);
    forall i | i in ChunkPositions(parts, c) ensures i in Shift(Positions(|parts[c]|), off) {
      assert i - off in Positions(|parts[c]|) && i == (i - off) + off;
    }
  }

  /** Hydrating the chunks named in order, one after the other; an index may occur many times. */
  function HydrateInOrder(t: Table, parts: seq<seq<Row>>, order: seq<nat>, group: nat): Table
    requires forall i :: 0 <= i < |order| ==> order[i] < |parts|
  {
    if order == [] then t else
      Hydrated(HydrateInOrder(t, parts, order[..|order| - 1], group), parts[order[|order| - 1]], group)
  }

  ghost function Covered(parts: seq<seq<Row>>, order: seq<nat>): set<nat>
    requires forall i :: 0 <= i < |order| ==> order[i] < |parts|
  {
    if order == [] then {} else
      Covered(parts, order[..|order| - 1]) + ChunkPositions(parts, order[|order| - 1])
  }

  /** k is the key of no writing row. */
  ghost predicate Foreign(k: Key, rows: seq<Row>) {
    forall i :: 0 <= i < |rows| && Writes(rows[i]) ==> RowKey(rows[i]) != k
  }

  lemma {:induction false} HydratedPart(t: Table, parts: seq<seq<Row>>, order: seq<nat>, group: nat)
    requires DistinctKeys(Flatten(parts)) && forall i :: 0 <= i < |order| ==> order[i] < |parts|
    ensures WrittenOnPage(t, Flatten(parts), Covered(parts, order), HydrateInOrder(t, parts, order, group))
    ensures forall k :: Foreign(k, Flatten(parts)) ==> Get(HydrateInOrder(t, parts, order, group), k) == Get(t, k)
  {
    if order != [] {
      var n, rows := |order| - 1, Flatten(parts);
      HydratedPart(t, parts, order[..n], group);
      var u, part, off := HydrateInOrder(t, parts, order[..n], group), parts[order[n]], Offset(parts, order[n]);
      ChunkIsStretch(parts, order[n]);
      StretchDistinct(part, rows, off);
      HydratedIsRowAtATime(u, part, group);
      ChunkWriteOnPage(t, rows, Covered(parts, order[..n]), u, part, off, Positions(|part|), Hydrated(u, part, group));
      ShiftedPositions(parts, order[n]);
      forall k | Foreign(k, rows)
        ensures Get(HydrateInOrder(t, parts, order, group), k) == Get(t, k)
      {
        StretchForeign(k, part, rows, off);
      }
    }
  }

  lemma StretchForeign(k: Key, part: seq<Row>, rows: seq<Row>, off: nat)
    requires StretchOf(part, rows, off) && Foreign(k, rows)
    ensures forall j :: j in Positions(|part|) && Writes(part[j]) ==> RowKey(part[j]) != k
  {
  }

  lemma StretchDistinct(part: seq<Row>, rows: seq<Row>, off: nat)
    requires DistinctKeys(rows) && StretchOf(part, rows, off)
    ensures DistinctKeys(part)
  {
    forall i, j | 0 <= i < j < |part| && Writes(part[i]) && Writes(part[j])
      ensures RowKey(part[i]) != RowKey(part[j])
    {
      assert part[i] == rows[off + i] && part[j] == rows[off + j];
    }
  }

  /** Hydrating every chunk at least once, in any order and with any repetition, is applying the page. */
  lemma ChunkOrderIsIrrelevant(t: Table, parts: seq<seq<Row>>, order: seq<nat>, group: nat)
    requires DistinctKeys(Flatten(parts))
    requires forall i :: 0 <= i < |order| ==> order[i] < |parts|
    requires forall c: nat :: c < |parts| ==> c in order
    ensures HydrateInOrder(t, parts, order, group) == ApplyRows(t, Flatten(parts))
  {
    var rows, all := Flatten(parts), Positions(|Flatten(parts)|);
    HydratedPart(t, parts, order, group);
    forall p: nat | p < |rows| ensures p in Covered(parts, order) {
      var c := SomeChunkHolds(parts, p);
      assert c in order;
      var i :| 0 <= i < |order| && order[i] == c;
      CoveredAt(parts, order, i);
    }
    var u := HydrateInOrder(t, parts, order, group);
    assert Written(t, rows, all, u) by {
      forall k | forall i :: i in all && Writes(rows[i]) ==> RowKey(rows[i]) != k
        ensures Get(u, k) == Get(t, k)
      {
        assert forall i :: 0 <= i < |rows| ==> i in all;
        assert Foreign(k, rows);
      }
    }
    ApplyRowsWritten(t, rows);
    WrittenUnique(t, rows, all, u, ApplyRows(t, rows));
  }

  lemma {:induction false} CoveredAt(parts: seq<seq<Row>>, order: seq<nat>, i: nat)
    requires i < |order| && forall j :: 0 <= j < |order| ==> order[j] < |parts|
    ensures ChunkPositions(parts, order[i]) <= Covered(parts, order)
  {
    if i < |order| - 1 {
      CoveredAt(parts, order[..|order| - 1], i);
    }
  }
}
