/** HydrateReplicaBatch (internal/service/sync/listing_mirror.go): a chunk of RESO rows is written to
    the listings mirror in flushed groups of upserts, followed by the deletes.

    RowResult says what one row does to one listing. Everything else is stated through it: the batched
    writer, for rows with distinct keys, leaves each listing as its row says, whatever the group size,
    the order of the chunks and the number of times a chunk is written. */
module ListingMirror {
  import opened Wrappers

  datatype Key = Key(dataset: string, listing: string)

  /** The navigation columns; None is SQL NULL. */
  datatype Navigation = Navigation(media: Option<string>, unit: Option<string>,
                                   room: Option<string>, openHouse: Option<string>)

  /** A normalised upstream row. columns stands for the scalar columns that every upsert overwrites. */
  datatype Record = Record(key: Key, columns: string, navigation: Navigation,
                           latitude: Option<real>, longitude: Option<real>, lowRisk: bool)

  datatype Point = Point(longitude: real, latitude: real)

  /** One row of the listings table without its surrogate id and timestamps. */
  datatype Listing = Listing(columns: string, navigation: Navigation,
                             latitude: Option<real>, longitude: Option<real>,
                             coordinates: Option<Point>,
                             femaZone: Option<string>, lowRisk: bool)

  type Table = map<Key, Listing>

  datatype Row = Skip | Remove(key: Key) | Upsert(record: Record)

  function Get(t: Table, k: Key): Option<Listing> {
    if k in t then Some(t[k]) else None
  }

  predicate Writes(r: Row) { !r.Skip? }

  function RowKey(r: Row): Key
    requires Writes(r)
  {
    if r.Remove? then r.key else r.record.key
  }

  // ---- One row of the table ------------------------------------------------------------------

  function Coalesce<T>(a: Option<T>, b: Option<T>): Option<T> {
    if a.Some? then a else b
  }

  function CoalesceNavigation(a: Navigation, b: Navigation): Navigation {
    Navigation(Coalesce(a.media, b.media), Coalesce(a.unit, b.unit),
               Coalesce(a.room, b.room), Coalesce(a.openHouse, b.openHouse))
  }

  /** INSERT ... ON CONFLICT (dataset_slug, listing_key) DO UPDATE. An insert has no coordinates and no
      FEMA zone; an update keeps the coordinates and the FEMA columns. */
  function UpsertResult(rec: Record, prior: Option<Listing>): Listing {
    match prior
    case None =>
      Listing(rec.columns, rec.navigation, rec.latitude, rec.longitude, None, None, rec.lowRisk)
    case Some(l) =>
      l.(columns := rec.columns, navigation := CoalesceNavigation(rec.navigation, l.navigation),
         latitude := rec.latitude, longitude := rec.longitude)
  }

  function RecordPoint(rec: Record): Option<Point> {
    if rec.latitude.Some? && rec.longitude.Some?
    then Some(Point(rec.longitude.value, rec.latitude.value)) else None
  }

  /** What one upstream row does to the listing with its key. */
  function RowResult(r: Row, prior: Option<Listing>): Option<Listing>
    requires Writes(r)
  {
    match r
    case Remove(_) => None
    case Upsert(rec) => Some(UpsertResult(rec, prior).(coordinates := RecordPoint(rec)))
  }

  lemma RowResultIdempotent(r: Row, prior: Option<Listing>)
    requires Writes(r)
    ensures RowResult(r, RowResult(r, prior)) == RowResult(r, prior)
    ensures r.Upsert? ==>
      var l := RowResult(r, prior).value;
      l.coordinates.Some? <==> l.latitude.Some? && l.longitude.Some?
  {
    if r.Upsert? && prior.Some? {
      var n, o := r.record.navigation, prior.value.navigation;
      assert CoalesceNavigation(n, CoalesceNavigation(n, o)) == CoalesceNavigation(n, o);
    }
  }

  // ---- Row at a time -------------------------------------------------------------------------

  function Put(t: Table, k: Key, v: Option<Listing>): Table {
    if v.Some? then t[k := v.value] else t - {k}
  }

  function ApplyRow(t: Table, r: Row): Table {
    if r.Skip? then t else Put(t, RowKey(r), RowResult(r, Get(t, RowKey(r))))
  }

  function ApplyRows(t: Table, rows: seq<Row>): Table {
    if rows == [] then t else ApplyRow(ApplyRows(t, rows[..|rows| - 1]), rows[|rows| - 1])
  }

  /** No two writing rows share a key. */
  ghost predicate DistinctKeys(rows: seq<Row>) {
    forall i, j :: 0 <= i < j < |rows| && Writes(rows[i]) && Writes(rows[j]) ==> RowKey(rows[i]) != RowKey(rows[j])
  }

  /** t' is t with exactly the rows at the given positions written, key by key. */
  ghost predicate Written(t: Table, rows: seq<Row>, some: set<nat>, t': Table) {
    && (forall i :: i in some ==> i < |rows|)
    && (forall i :: i in some && Writes(rows[i]) ==>
       Get(t', RowKey(rows[i])) == RowResult(rows[i], Get(t, RowKey(rows[i]))))
    && (forall k {:trigger Get(t', k)} ::
          (forall i :: i in some && Writes(rows[i]) ==> RowKey(rows[i]) != k) ==> Get(t', k) == Get(t, k))
  }

  function Positions(n: nat): (s: set<nat>)
    ensures forall i :: i in s <==> 0 <= i < n
  {
    if n == 0 then {} else Positions(n - 1) + {n - 1}
  }

  lemma SameLookups(t: Table, u: Table)
    requires forall k :: Get(t, k) == Get(u, k)
    ensures t == u
  {
    assert forall k :: k in t ==> Get(u, k) == Some(t[k]);
    assert forall k :: k in u ==> Get(t, k) == Some(u[k]);
  }

  lemma {:induction false} ApplyRowsWritten(t: Table, rows: seq<Row>)
    requires DistinctKeys(rows)
    ensures Written(t, rows, Positions(|rows|), ApplyRows(t, rows))
  {
    if rows != [] {
      var n := |rows| - 1;
      var init, last := rows[..n], rows[n];
      ApplyRowsWritten(t, init);
      assert forall i :: 0 <= i < n ==> init[i] == rows[i];
      var u, t' := ApplyRows(t, init), ApplyRows(t, rows);
      assert t' == ApplyRow(u, last);
      if Writes(last) {
        assert Get(u, RowKey(last)) == Get(t, RowKey(last));
        assert forall k :: k != RowKey(last) ==> Get(t', k) == Get(u, k);
      }
      forall k | forall i :: i in Positions(n + 1) && Writes(rows[i]) ==> RowKey(rows[i]) != k
        ensures Get(t', k) == Get(t, k)
      {
        assert forall i :: i in Positions(n) && Writes(init[i]) ==> RowKey(init[i]) != k;
        if Writes(last) { assert n in Positions(n + 1) && RowKey(rows[n]) != k; }
      }
    }
  }

  /** Written determines the table. */
  lemma WrittenUnique(t: Table, rows: seq<Row>, some: set<nat>, a: Table, b: Table)
    requires Written(t, rows, some, a) && Written(t, rows, some, b)
    ensures a == b
  {
    forall k ensures Get(a, k) == Get(b, k) {
      if i :| i in some && Writes(rows[i]) && RowKey(rows[i]) == k {
      }
    }
    SameLookups(a, b);
  }

  /** Writing more rows, or the same ones again, is writing the union. */
  lemma WrittenTwice(t: Table, rows: seq<Row>, first: set<nat>, u: Table, second: set<nat>, v: Table)
    requires DistinctKeys(rows)
    requires Written(t, rows, first, u) && Written(u, rows, second, v)
    ensures Written(t, rows, first + second, v)
  {
    forall i | i in first + second && Writes(rows[i])
      ensures Get(v, RowKey(rows[i])) == RowResult(rows[i], Get(t, RowKey(rows[i])))
    {
      var k := RowKey(rows[i]);
      RowResultIdempotent(rows[i], Get(t, k));
      assert forall j :: 0 <= j < |rows| && j != i && Writes(rows[j]) ==> RowKey(rows[j]) != k;
      if i !in first { assert Get(u, k) == Get(t, k); }
      if i !in second { assert Get(v, k) == Get(u, k); }
    }
    forall k | forall i :: i in first + second && Writes(rows[i]) ==> RowKey(rows[i]) != k
      ensures Get(v, k) == Get(t, k)
    {
      assert forall i :: i in first && Writes(rows[i]) ==> i in first + second;
      assert forall i :: i in second && Writes(rows[i]) ==> i in first + second;
      assert Get(u, k) == Get(t, k);
      assert Get(v, k) == Get(u, k);
    }
  }

  // ---- The batched writer as a function ------------------------------------------------------

  function UpsertAll(t: Table, pending: seq<Record>): Table {
    if pending == [] then t else
      var n := |pending| - 1;
      var u := UpsertAll(t, pending[..n]);
      u[pending[n].key := UpsertResult(pending[n], Get(u, pending[n].key))]
  }

  function PlaceAll(t: Table, pending: seq<Record>): Table {
    if pending == [] then t else
      var n := |pending| - 1;
      var u := PlaceAll(t, pending[..n]);
      var k := pending[n].key;
      if RecordPoint(pending[n]).Some? && k in u then u[k := u[k].(coordinates := RecordPoint(pending[n]))] else u
  }

  function UnplacedKeys(pending: seq<Record>): set<Key> {
    set i | 0 <= i < |pending| && RecordPoint(pending[i]).None? :: pending[i].key
  }

  function ClearCoordinates(t: Table, keys: set<Key>): Table {
    map k | k in t :: if k in keys then t[k].(coordinates := None) else t[k]
  }

  /** One flush transaction: upserts, then coordinates, then cleared coordinates. */
  function Flush(t: Table, pending: seq<Record>): Table {
    ClearCoordinates(PlaceAll(UpsertAll(t, pending), pending), UnplacedKeys(pending))
  }

  function RemovedKeys(rows: seq<Row>): set<Key> {
    set i | 0 <= i < |rows| && rows[i].Remove? :: rows[i].key
  }

  function RowsOf(pending: seq<Record>): (rows: seq<Row>)
    ensures |rows| == |pending|
  {
    seq(|pending|, i requires 0 <= i < |pending| => Upsert(pending[i]))
  }

  ghost predicate DistinctRecords(pending: seq<Record>) {
    forall i, j :: 0 <= i < j < |pending| ==> pending[i].key != pending[j].key
  }

  lemma {:induction false} UpsertAllLookup(t: Table, pending: seq<Record>)
    requires DistinctRecords(pending)
    ensures forall i :: 0 <= i < |pending| ==>
      Get(UpsertAll(t, pending), pending[i].key) == Some(UpsertResult(pending[i], Get(t, pending[i].key)))
    ensures forall k :: (forall i :: 0 <= i < |pending| ==> pending[i].key != k) ==>
      Get(UpsertAll(t, pending), k) == Get(t, k)
  {
    if pending != [] {
      var n := |pending| - 1;
      UpsertAllLookup(t, pending[..n]);
      forall i | 0 <= i < n
        ensures Get(UpsertAll(t, pending), pending[i].key) == Some(UpsertResult(pending[i], Get(t, pending[i].key)))
      {
        assert pending[..n][i] == pending[i];
      }
    }
  }

  lemma {:induction false} PlaceAllElsewhere(t: Table, pending: seq<Record>, k: Key)
    requires forall i :: 0 <= i < |pending| ==> pending[i].key != k
    ensures Get(PlaceAll(t, pending), k) == Get(t, k)
  {
    if pending != [] { PlaceAllElsewhere(t, pending[..|pending| - 1], k); }
  }

  lemma {:induction false} PlaceAllAt(t: Table, pending: seq<Record>, i: nat)
    requires DistinctRecords(pending) && i < |pending| && pending[i].key in t
    ensures var k := pending[i].key;
      Get(PlaceAll(t, pending), k) ==
        Some(if RecordPoint(pending[i]).Some? then t[k].(coordinates := RecordPoint(pending[i])) else t[k])
  {
    var n, k := |pending| - 1, pending[i].key;
    if i == n {
      PlaceAllElsewhere(t, pending[..n], k);
    } else {
      PlaceAllAt(t, pending[..n], i);
      assert pending[n].key != k;
    }
  }

  /** A flush of distinct records writes exactly their rows. */
  lemma FlushWritten(t: Table, pending: seq<Record>)
    requires DistinctRecords(pending)
    ensures Written(t, RowsOf(pending), Positions(|pending|), Flush(t, pending))
  {
    hide Flush, RowResult;
    var rows, f := RowsOf(pending), Flush(t, pending);
    forall i | 0 <= i < |pending|
      ensures Get(f, RowKey(rows[i])) == RowResult(rows[i], Get(t, RowKey(rows[i])))
    {
      FlushAtRecord(t, pending, i);
    }
    forall k | forall i :: i in Positions(|pending|) && Writes(rows[i]) ==> RowKey(rows[i]) != k
      ensures Get(f, k) == Get(t, k)
    {
      forall i | 0 <= i < |pending| ensures pending[i].key != k {
        assert i in Positions(|pending|) && Writes(rows[i]);
      }
      FlushElsewhere(t, pending, k);
    }
  }

  lemma FlushElsewhere(t: Table, pending: seq<Record>, k: Key)
    requires DistinctRecords(pending) && forall i :: 0 <= i < |pending| ==> pending[i].key != k
    ensures Get(Flush(t, pending), k) == Get(t, k)
  {
    UpsertAllLookup(t, pending);
    PlaceAllElsewhere(UpsertAll(t, pending), pending, k);
    assert k !in UnplacedKeys(pending);
  }

  lemma FlushAtRecord(t: Table, pending: seq<Record>, i: nat)
    requires DistinctRecords(pending) && i < |pending|
    ensures Get(Flush(t, pending), pending[i].key) == RowResult(Upsert(pending[i]), Get(t, pending[i].key))
  {
    var u, k := UpsertAll(t, pending), pending[i].key;
    UpsertAllLookup(t, pending);
    assert Get(u, k) == Some(UpsertResult(pending[i], Get(t, k)));
    PlaceAllAt(u, pending, i);
    if RecordPoint(pending[i]).None? {
      assert k in UnplacedKeys(pending);
    } else {
      assert k !in UnplacedKeys(pending);
    }
  }

  // ---- The batched writer and its refinement -------------------------------------------------

  /** The upserts of rows, group by group: pending holds the records collected since the last flush. */
  function FlushedUpserts(t: Table, pending: seq<Record>, rows: seq<Row>, group: nat): Table
    decreases |rows|
  {
    if rows == [] then Flush(t, pending)
    else if !rows[0].Upsert? then FlushedUpserts(t, pending, rows[1..], group)
    else
      var grown := pending + [rows[0].record];
      if |grown| >= group then FlushedUpserts(Flush(t, grown), [], rows[1..], group)
      else FlushedUpserts(t, grown, rows[1..], group)
  }

  /** HydrateReplicaBatch: all upserts in groups, then all deletes. */
  function Hydrated(t: Table, rows: seq<Row>, group: nat): Table {
    FlushedUpserts(t, [], rows, group) - RemovedKeys(rows)
  }

  function UpsertsOf(rows: seq<Row>): (r: seq<Row>) {
    if rows == [] then [] else (if rows[0].Upsert? then [rows[0]] else []) + UpsertsOf(rows[1..])
  }

  lemma {:induction false} ApplyRowsConcat(t: Table, a: seq<Row>, b: seq<Row>)
    ensures ApplyRows(t, a + b) == ApplyRows(ApplyRows(t, a), b)
  {
    if b == [] {
      assert a + b == a;
    } else {
      var n := |b| - 1;
      ApplyRowsConcat(t, a, b[..n]);
      assert (a + b)[..|a + b| - 1] == a + b[..n];
    }
  }

  lemma FlushIsRowAtATime(t: Table, pending: seq<Record>)
    requires DistinctRecords(pending)
    ensures Flush(t, pending) == ApplyRows(t, RowsOf(pending))
  {
    FlushWritten(t, pending);
    ApplyRowsWritten(t, RowsOf(pending));
    WrittenUnique(t, RowsOf(pending), Positions(|pending|), Flush(t, pending), ApplyRows(t, RowsOf(pending)));
  }

  /** A record's key is not among the remaining rows. */
  ghost predicate PendingDistinct(pending: seq<Record>, rows: seq<Row>) {
    && DistinctRecords(pending) && DistinctKeys(rows)
    && forall i, j :: 0 <= i < |pending| && 0 <= j < |rows| && Writes(rows[j]) ==> pending[i].key != RowKey(rows[j])
  }

  lemma PendingGrows(pending: seq<Record>, rows: seq<Row>)
    requires PendingDistinct(pending, rows) && rows != []
    ensures PendingDistinct(pending, rows[1..])
    ensures rows[0].Upsert? ==> PendingDistinct(pending + [rows[0].record], rows[1..])
  {
    var rest := rows[1..];
    forall i, j | 0 <= i < j < |rest| && Writes(rest[i]) && Writes(rest[j]) ensures RowKey(rest[i]) != RowKey(rest[j]) {
      assert rest[i] == rows[i + 1] && rest[j] == rows[j + 1];
    }
    if rows[0].Upsert? {
      assert RowKey(rows[0]) == rows[0].record.key;
      assert forall j :: 0 <= j < |rest| ==> rest[j] == rows[j + 1];
    }
  }

  lemma {:induction false} FlushedUpsertsAreRowAtATime(t: Table, pending: seq<Record>, rows: seq<Row>, group: nat)
    requires PendingDistinct(pending, rows)
    ensures FlushedUpserts(t, pending, rows, group) == ApplyRows(t, RowsOf(pending) + UpsertsOf(rows))
    decreases |rows|, 1
  {
    if rows == [] {
      FlushIsRowAtATime(t, pending);
      assert RowsOf(pending) + [] == RowsOf(pending);
    } else {
      PendingGrows(pending, rows);
      if rows[0].Upsert? {
        FlushedUpsertsStep(t, pending, rows, group);
      } else {
        FlushedUpsertsAreRowAtATime(t, pending, rows[1..], group);
        assert UpsertsOf(rows) == UpsertsOf(rows[1..]);
      }
    }
  }

  lemma {:induction false} FlushedUpsertsStep(t: Table, pending: seq<Record>, rows: seq<Row>, group: nat)
    requires rows != [] && rows[0].Upsert? && PendingDistinct(pending + [rows[0].record], rows[1..])
    ensures FlushedUpserts(t, pending, rows, group) == ApplyRows(t, RowsOf(pending) + UpsertsOf(rows))
    decreases |rows|, 0
  {
    var grown, rest := pending + [rows[0].record], rows[1..];
    assert RowsOf(pending) + UpsertsOf(rows) == RowsOf(grown) + UpsertsOf(rest);
    if |grown| >= group {
      FlushIsRowAtATime(t, grown);
      NothingPending(rest);
      FlushedUpsertsAreRowAtATime(Flush(t, grown), [], rest, group);
      ApplyRowsConcat(t, RowsOf(grown), UpsertsOf(rest));
    } else {
      FlushedUpsertsAreRowAtATime(t, grown, rest, group);
    }
  }

  lemma NothingPending(rows: seq<Row>)
    requires DistinctKeys(rows)
    ensures PendingDistinct([], rows) && RowsOf([]) + UpsertsOf(rows) == UpsertsOf(rows)
  {
  }

  lemma RemovalCommutes(t: Table, removed: set<Key>, row: Row)
    requires row.Upsert? ==> row.record.key !in removed
    ensures row.Upsert? ==> ApplyRow(t, row) - removed == ApplyRow(t - removed, row)
    ensures row.Remove? ==> t - (removed + {row.key}) == ApplyRow(t - removed, row)
  {
  }

  /** Applying the upserts alone and then the deletes is applying the rows in order. */
  lemma {:induction false} DeletesCommute(t: Table, rows: seq<Row>)
    requires DistinctKeys(rows)
    ensures ApplyRows(t, UpsertsOf(rows)) - RemovedKeys(rows) == ApplyRows(t, rows)
  {
    if rows != [] {
      var n := |rows| - 1;
      var init, last := rows[..n], rows[n];
      var ups := UpsertsOf(init);
      assert DistinctKeys(init);
      hide DistinctKeys;
      DeletesCommute(t, init);
      UpsertsOfSnoc(init, last);
      assert init + [last] == rows;
      RemovedKeysSnoc(init, last);
      LastKeyNotRemoved(rows);
      RemovalCommutes(ApplyRows(t, ups), RemovedKeys(init), last);
      if last.Upsert? {
        assert (ups + [last])[..|ups|] == ups;
      } else {
        assert ups + [] == ups;
      }
    }
  }

  lemma LastKeyNotRemoved(rows: seq<Row>)
    requires DistinctKeys(rows) && rows != []
    ensures var n := |rows| - 1; rows[n].Upsert? ==> rows[n].record.key !in RemovedKeys(rows[..n])
  {
    var n := |rows| - 1;
    if rows[n].Upsert? {
      assert RowKey(rows[n]) == rows[n].record.key;
      assert forall i :: 0 <= i < n && rows[..n][i].Remove? ==>
        RowKey(rows[i]) == rows[..n][i].key && RowKey(rows[i]) != RowKey(rows[n]);
    }
  }

  lemma {:induction false} UpsertsOfSnoc(rows: seq<Row>, last: Row)
    ensures UpsertsOf(rows + [last]) == UpsertsOf(rows) + (if last.Upsert? then [last] else [])
  {
    if rows == [] {
      assert rows + [last] == [last];
    } else {
      UpsertsOfSnoc(rows[1..], last);
      assert (rows + [last])[1..] == rows[1..] + [last];
    }
  }

  lemma RemovedKeysSnoc(rows: seq<Row>, last: Row)
    ensures RemovedKeys(rows + [last]) == RemovedKeys(rows) + (if last.Remove? then {last.key} else {})
  {
    var all := rows + [last];
    forall k | k in RemovedKeys(rows) ensures k in RemovedKeys(all) {
      var i :| 0 <= i < |rows| && rows[i].Remove? && rows[i].key == k;
      assert all[i] == rows[i];
    }
    if last.Remove? { assert all[|rows|] == last; }
  }

  /** The batched writer refines row-at-a-time application, for every group size. */
  lemma HydratedIsRowAtATime(t: Table, rows: seq<Row>, group: nat)
    requires DistinctKeys(rows)
    ensures Hydrated(t, rows, group) == ApplyRows(t, rows)
    ensures Written(t, rows, Positions(|rows|), Hydrated(t, rows, group))
  {
    FlushedUpsertsAreRowAtATime(t, [], rows, group);
    assert RowsOf([]) + UpsertsOf(rows) == UpsertsOf(rows);
    DeletesCommute(t, rows);
    ApplyRowsWritten(t, rows);
  }
}
