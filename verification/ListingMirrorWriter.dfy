/** The loops of HydrateReplicaBatch (internal/service/sync/listing_mirror.go) over a mutable table. */
module ListingMirrorWriting {
  import opened Wrappers
  import opened ListingMirror

  const SEGMENT := 250

  datatype HydrateStats = HydrateStats(received: nat, upserted: nat, deleted: nat, skipped: nat)

  type Placement = (Key, Point)

  function PlacePoints(t: Table, points: seq<Placement>): Table {
    if points == [] then t else
      var n := |points| - 1;
      var u := PlacePoints(t, points[..n]);
      var k := points[n].0;
      if k in u then u[k := u[k].(coordinates := Some(points[n].1))] else u
  }

  function PointsOf(pending: seq<Record>): seq<Placement> {
    if pending == [] then [] else
      var n := |pending| - 1;
      PointsOf(pending[..n]) +
      (if RecordPoint(pending[n]).Some? then [(pending[n].key, RecordPoint(pending[n]).value)] else [])
  }

  lemma {:induction false} PlacePointsIsPlaceAll(t: Table, pending: seq<Record>)
    ensures PlacePoints(t, PointsOf(pending)) == PlaceAll(t, pending)
  {
    if pending != [] {
      var n := |pending| - 1;
      PlacePointsIsPlaceAll(t, pending[..n]);
      var ps := PointsOf(pending[..n]);
      if RecordPoint(pending[n]).Some? {
        assert PointsOf(pending)[..|ps|] == ps;
      } else {
        assert PointsOf(pending) == ps;
      }
    }
  }

  lemma PendingSnoc(pending: seq<Record>, rec: Record)
    ensures PointsOf(pending + [rec]) ==
            PointsOf(pending) + (if RecordPoint(rec).Some? then [(rec.key, RecordPoint(rec).value)] else [])
    ensures UnplacedKeys(pending + [rec]) ==
            UnplacedKeys(pending) + (if RecordPoint(rec).None? then {rec.key} else {})
  {
    var all := pending + [rec];
    assert all[..|pending|] == pending;
    forall k | k in UnplacedKeys(pending) ensures k in UnplacedKeys(all) {
      var i :| 0 <= i < |pending| && RecordPoint(pending[i]).None? && pending[i].key == k;
      assert all[i] == pending[i];
    }
    if RecordPoint(rec).None? { assert all[|pending|] == rec; }
  }

  function Count(rows: seq<Row>): (s: HydrateStats)
  {
    if rows == [] then HydrateStats(0, 0, 0, 0) else
      var s := Count(rows[..|rows| - 1]);
      var r := rows[|rows| - 1];
      HydrateStats(s.received + 1, s.upserted + (if r.Upsert? then 1 else 0),
                   s.deleted + (if r.Remove? then 1 else 0), s.skipped + (if r.Skip? then 1 else 0))
  }

  function ToSet(keys: seq<Key>): set<Key> { set i | 0 <= i < |keys| :: keys[i] }

  // ---- Commits ---------------------------------------------------------------------------------

  /** What one committed transaction does: a flush of the records of the upserts at the given positions, or
      a delete of keys. It does not depend on the table it meets. */
  datatype Commit = Flushed(records: seq<Record>, at: seq<nat>) | Deleted(keys: set<Key>)

  function After(c: Commit, t: Table): Table {
    match c
    case Flushed(records, _) => Flush(t, records)
    case Deleted(keys) => t - keys
  }

  function Replayed(t: Table, cs: seq<Commit>): Table {
    if cs == [] then t else After(cs[|cs| - 1], Replayed(t, cs[..|cs| - 1]))
  }

  /** The pending records are upserts among the rows, at increasing positions. */
  ghost predicate Tracked(rows: seq<Row>, pending: seq<Record>, at: seq<nat>) {
    && |at| == |pending|
    && (forall i :: 0 <= i < |at| ==> at[i] < |rows| && rows[at[i]] == Upsert(pending[i]))
    && (forall i, j :: 0 <= i < j < |at| ==> at[i] < at[j])
  }

  ghost predicate Describes(rows: seq<Row>, c: Commit) {
    match c
    case Flushed(records, at) => Tracked(rows, records, at)
    case Deleted(keys) => keys <= RemovedKeys(rows)
  }

  /** The rows that a commit writes. */
  function PositionsOf(rows: seq<Row>, c: Commit): set<nat> {
    match c
    case Flushed(_, at) => set i | i in at
    case Deleted(keys) => set p | p in Positions(|rows|) && rows[p].Remove? && rows[p].key in keys
  }

  /** Upserts at different positions have different keys. */
  lemma TrackedDistinct(rows: seq<Row>, pending: seq<Record>, at: seq<nat>)
    requires DistinctKeys(rows) && Tracked(rows, pending, at)
    ensures DistinctRecords(pending)
  {
    forall i, j | 0 <= i < j < |pending| ensures pending[i].key != pending[j].key {
      var a, b := at[i], at[j];
      assert Writes(rows[a]) && Writes(rows[b]) && RowKey(rows[a]) != RowKey(rows[b]);
    }
  }

  lemma FlushedRow(rows: seq<Row>, c: Commit, u: Table, p: nat)
    requires DistinctKeys(rows) && c.Flushed? && Describes(rows, c) && p in PositionsOf(rows, c)
    ensures p < |rows| && Writes(rows[p])
    ensures Get(After(c, u), RowKey(rows[p])) == RowResult(rows[p], Get(u, RowKey(rows[p])))
  {
    TrackedDistinct(rows, c.records, c.at);
    var i :| 0 <= i < |c.at| && c.at[i] == p;
    FlushAtRecord(u, c.records, i);
  }

  lemma FlushElse(rows: seq<Row>, c: Commit, u: Table, k: Key)
    requires DistinctKeys(rows) && c.Flushed? && Describes(rows, c)
    requires forall p :: p in PositionsOf(rows, c) && Writes(rows[p]) ==> RowKey(rows[p]) != k
    ensures Get(After(c, u), k) == Get(u, k)
  {
    TrackedDistinct(rows, c.records, c.at);
    forall i | 0 <= i < |c.records| ensures c.records[i].key != k {
      assert c.at[i] in PositionsOf(rows, c) && rows[c.at[i]] == Upsert(c.records[i]);
    }
    FlushElsewhere(u, c.records, k);
  }

  lemma FlushIsWrite(rows: seq<Row>, c: Commit, u: Table)
    requires DistinctKeys(rows) && c.Flushed? && Describes(rows, c)
    ensures Written(u, rows, PositionsOf(rows, c), After(c, u))
  {
    forall p | p in PositionsOf(rows, c)
      ensures p < |rows| && Writes(rows[p])
      ensures Get(After(c, u), RowKey(rows[p])) == RowResult(rows[p], Get(u, RowKey(rows[p])))
    {
      FlushedRow(rows, c, u, p);
    }
    forall k | forall p :: p in PositionsOf(rows, c) && Writes(rows[p]) ==> RowKey(rows[p]) != k
      ensures Get(After(c, u), k) == Get(u, k)
    {
      FlushElse(rows, c, u, k);
    }
  }

  lemma DeleteIsWrite(rows: seq<Row>, c: Commit, u: Table)
    requires c.Deleted? && Describes(rows, c)
    ensures Written(u, rows, PositionsOf(rows, c), After(c, u))
  {
    forall k | k in c.keys
      ensures exists p :: p in PositionsOf(rows, c) && Writes(rows[p]) && RowKey(rows[p]) == k
    {
      var i: nat :| i < |rows| && rows[i].Remove? && rows[i].key == k;
      assert i in PositionsOf(rows, c);
    }
    assert forall k :: k !in c.keys ==> Get(u - c.keys, k) == Get(u, k);
  }

  /** Whatever the table holds when a commit of the writer takes effect, its rows are written to it and
      nothing else is changed. */
  lemma CommitIsWrite(rows: seq<Row>, c: Commit, u: Table)
    requires DistinctKeys(rows) && Describes(rows, c)
    ensures Written(u, rows, PositionsOf(rows, c), After(c, u))
  {
    if c.Flushed? { FlushIsWrite(rows, c, u); } else { DeleteIsWrite(rows, c, u); }
  }

  /** A transaction keeps to the order of the call: of the rows still to do, upserts are flushed first to last, and
      deletes wait for all of them. */
  ghost predicate KeepsOrder(rows: seq<Row>, todo: set<nat>, c: Commit) {
    match c
    case Flushed(_, at) =>
      forall p, q :: p in todo && p < |rows| && rows[p].Upsert? && p !in at && q in at ==> q < p
    case Deleted(_) => forall p :: p in todo && p < |rows| ==> !rows[p].Upsert?
  }

  /** What a call on rows does to a table at once: its next transaction, or passing over rows that write nothing. */
  ghost predicate Commits(u: Table, rows: seq<Row>, todo: set<nat>, sub: set<nat>, v: Table) {
    || (v == u && forall i :: i in sub ==> i < |rows| && rows[i].Skip?)
    || exists c :: Describes(rows, c) && KeepsOrder(rows, todo, c) && sub == PositionsOf(rows, c) && v == After(c, u)
  }

  // ---- The commits of one call -----------------------------------------------------------------

  function UpsertPositions(rows: seq<Row>, n: nat): seq<nat>
    requires n <= |rows|
  {
    if n == 0 then [] else UpsertPositions(rows, n - 1) + if rows[n - 1].Upsert? then [n - 1] else []
  }

  /** The positions flushed, commit after commit. */
  function AtsOf(cs: seq<Commit>): seq<nat> {
    if cs == [] then [] else
      var c := cs[|cs| - 1];
      AtsOf(cs[..|cs| - 1]) + if c.Flushed? then c.at else []
  }

  function KeysOf(cs: seq<Commit>): set<Key> {
    if cs == [] then {} else
      var c := cs[|cs| - 1];
      KeysOf(cs[..|cs| - 1]) + if c.Deleted? then c.keys else {}
  }

  /** No key is deleted by two commits. */
  ghost predicate DeletesApart(cs: seq<Commit>) {
    forall i, j :: 0 <= i < j < |cs| && cs[i].Deleted? && cs[j].Deleted? ==> cs[i].keys !! cs[j].keys
  }

  ghost predicate DeletesLast(cs: seq<Commit>) {
    forall i, j :: 0 <= i < j < |cs| && cs[i].Deleted? ==> cs[j].Deleted?
  }

  /** cs flushes the upserts of rows in row order and then deletes each removed key once. */
  ghost predicate Performs(rows: seq<Row>, cs: seq<Commit>) {
    && (forall i :: 0 <= i < |cs| ==> Describes(rows, cs[i]))
    && AtsOf(cs) == UpsertPositions(rows, |rows|) && KeysOf(cs) == RemovedKeys(rows)
    && DeletesApart(cs) && DeletesLast(cs)
  }

  lemma {:induction false} UpsertPositionsMembers(rows: seq<Row>, n: nat, p: nat)
    requires n <= |rows|
    ensures p in UpsertPositions(rows, n) <==> p < n && rows[p].Upsert?
  {
    if n > 0 { UpsertPositionsMembers(rows, n - 1, p); }
  }

  lemma {:induction false} UpsertPositionsFacts(rows: seq<Row>, n: nat)
    requires n <= |rows|
    ensures forall i, j :: 0 <= i < j < |UpsertPositions(rows, n)| ==>
      UpsertPositions(rows, n)[i] < UpsertPositions(rows, n)[j]
    ensures forall p: nat :: p in UpsertPositions(rows, n) <==> p < n && rows[p].Upsert?
  {
    forall p: nat
      ensures p in UpsertPositions(rows, n) <==> p < n && rows[p].Upsert?
    {
      UpsertPositionsMembers(rows, n, p);
    }
    if n > 0 {
      UpsertPositionsFacts(rows, n - 1);
      var before := UpsertPositions(rows, n - 1);
      forall i | 0 <= i < |before| ensures before[i] < n - 1 { assert before[i] in before; }
    }
  }

  lemma {:induction false} AtsPrefix(cs: seq<Commit>, n: nat)
    requires n <= |cs|
    ensures AtsOf(cs[..n]) <= AtsOf(cs)
    decreases |cs| - n
  {
    if n == |cs| {
      assert cs[..n] == cs;
    } else {
      AtsPrefix(cs, n + 1);
      assert cs[..n + 1][..n] == cs[..n];
    }
  }

  /** Where the positions of commit i stand among all flushed positions. */
  lemma AtsIndex(cs: seq<Commit>, i: nat, m: nat)
    requires i < |cs| && cs[i].Flushed? && m < |cs[i].at|
    ensures var off := |AtsOf(cs[..i])|;
      off + m < |AtsOf(cs[..i + 1])| <= |AtsOf(cs)| && AtsOf(cs)[off + m] == cs[i].at[m]
  {
    AtsPrefix(cs, i + 1);
    assert cs[..i + 1][..i] == cs[..i];
    assert AtsOf(cs[..i + 1]) == AtsOf(cs[..i]) + cs[i].at;
    assert AtsOf(cs[..i + 1])[|AtsOf(cs[..i])| + m] == cs[i].at[m];
  }

  lemma {:induction false} AtsCover(cs: seq<Commit>, p: nat) returns (i: nat)
    requires p in AtsOf(cs)
    ensures i < |cs| && cs[i].Flushed? && p in cs[i].at
  {
    var n := |cs| - 1;
    if p in AtsOf(cs[..n]) {
      i := AtsCover(cs[..n], p);
    } else {
      i := n;
    }
  }

  lemma {:induction false} KeysCover(cs: seq<Commit>, k: Key) returns (i: nat)
    requires k in KeysOf(cs)
    ensures i < |cs| && cs[i].Deleted? && k in cs[i].keys
  {
    var n := |cs| - 1;
    if k in KeysOf(cs[..n]) {
      i := KeysCover(cs[..n], k);
    } else {
      i := n;
    }
  }

  /** The commits of a call write every row that writes at all. */
  lemma CommitsCoverRows(rows: seq<Row>, cs: seq<Commit>, p: nat) returns (i: nat)
    requires Performs(rows, cs) && p < |rows| && Writes(rows[p])
    ensures i < |cs| && p in PositionsOf(rows, cs[i])
  {
    if rows[p].Upsert? {
      i := UpsertCovered(rows, cs, p);
    } else {
      assert rows[p].key in RemovedKeys(rows);
      i := KeysCover(cs, rows[p].key);
    }
  }

  lemma UpsertCovered(rows: seq<Row>, cs: seq<Commit>, p: nat) returns (i: nat)
    requires AtsOf(cs) == UpsertPositions(rows, |rows|) && p < |rows| && rows[p].Upsert?
    ensures i < |cs| && cs[i].Flushed? && p in cs[i].at
  {
    UpsertPositionsFacts(rows, |rows|);
    i := AtsCover(cs, p);
  }

  lemma {:induction false} AtsMonotone(cs: seq<Commit>, i: nat, j: nat)
    requires i <= j <= |cs|
    ensures |AtsOf(cs[..i])| <= |AtsOf(cs[..j])|
  {
    AtsPrefix(cs[..j], i);
    assert cs[..j][..i] == cs[..i];
  }

  lemma FlushesApart(rows: seq<Row>, cs: seq<Commit>, i: nat, j: nat)
    requires Performs(rows, cs) && i < j < |cs| && cs[i].Flushed? && cs[j].Flushed?
    ensures PositionsOf(rows, cs[i]) !! PositionsOf(rows, cs[j])
  {
    UpsertPositionsFacts(rows, |rows|);
    forall p | p in PositionsOf(rows, cs[i]) && p in PositionsOf(rows, cs[j]) ensures false {
      var m, n :| 0 <= m < |cs[i].at| && 0 <= n < |cs[j].at| && cs[i].at[m] == p && cs[j].at[n] == p;
      AtsIndex(cs, i, m);
      AtsIndex(cs, j, n);
      AtsMonotone(cs, i + 1, j);
    }
  }

  /** Flushes come in row order. */
  lemma FlushesInOrder(rows: seq<Row>, cs: seq<Commit>, i: nat, j: nat, q: nat, p: nat)
    requires Performs(rows, cs) && i < j < |cs| && cs[i].Flushed? && cs[j].Flushed? && q in cs[i].at && p in cs[j].at
    ensures q < p
  {
    UpsertPositionsFacts(rows, |rows|);
    var m :| 0 <= m < |cs[i].at| && cs[i].at[m] == q;
    var n :| 0 <= n < |cs[j].at| && cs[j].at[n] == p;
    AtsIndex(cs, i, m);
    AtsIndex(cs, j, n);
    AtsMonotone(cs, i + 1, j);
  }

  /** No row is written by two commits. */
  lemma CommitsAreApart(rows: seq<Row>, cs: seq<Commit>, i: nat, j: nat)
    requires Performs(rows, cs) && i < j < |cs|
    ensures PositionsOf(rows, cs[i]) !! PositionsOf(rows, cs[j])
  {
    assert Describes(rows, cs[i]) && Describes(rows, cs[j]);
    if cs[i].Flushed? && cs[j].Flushed? { FlushesApart(rows, cs, i, j); }
  }

  // ---- Partial writes ------------------------------------------------------------------------

  /** u is a state the table may be left in when writing rows to t stops early: some rows are
      written, the others are not. */
  ghost predicate PartlyWritten(t: Table, rows: seq<Row>, u: Table) {
    exists some :: Written(t, rows, some, u)
  }

  /** Left alone, a call goes through partly written tables only. */
  lemma {:induction false} CallIsPartlyWritten(t: Table, rows: seq<Row>, cs: seq<Commit>, n: nat)
    requires DistinctKeys(rows) && n <= |cs| && forall i :: 0 <= i < |cs| ==> Describes(rows, cs[i])
    ensures PartlyWritten(t, rows, Replayed(t, cs[..n]))
  {
    if n == 0 {
      assert Written(t, rows, {}, t);
    } else {
      CallIsPartlyWritten(t, rows, cs, n - 1);
      assert cs[..n][..n - 1] == cs[..n - 1];
      var u, c := Replayed(t, cs[..n - 1]), cs[n - 1];
      var some :| Written(t, rows, some, u);
      CommitIsWrite(rows, c, u);
      WrittenTwice(t, rows, some, u, PositionsOf(rows, c), After(c, u));
    }
  }

  // ---- One pass of the row loop ----------------------------------------------------------------

  /** The local variables of the row loop after n rows. */
  datatype Locals = Locals(stats: HydrateStats, pending: seq<Record>, coords: seq<Placement>,
                           nullCoordKeys: set<Key>, deletes: set<Key>)

  ghost predicate LoopState(start: Table, rows: seq<Row>, n: nat, group: nat, listings: Table, l: Locals, at: seq<nat>)
    requires n <= |rows|
  {
    && l.stats == Count(rows[..n])
    && l.deletes == RemovedKeys(rows[..n])
    && l.coords == PointsOf(l.pending) && l.nullCoordKeys == UnplacedKeys(l.pending)
    && FlushedUpserts(start, [], rows, group) == FlushedUpserts(listings, l.pending, rows[n..], group)
    && Tracked(rows[..n], l.pending, at)
  }

  lemma PassOverOther(start: Table, rows: seq<Row>, n: nat, group: nat, listings: Table, l: Locals, at: seq<nat>)
    requires n < |rows| && !rows[n].Upsert? && LoopState(start, rows, n, group, listings, l, at)
    ensures LoopState(start, rows, n + 1, group, listings,
      l.(stats := Count(rows[..n + 1]), deletes := l.deletes + (if rows[n].Remove? then {rows[n].key} else {})), at)
  {
    assert rows[..n + 1] == rows[..n] + [rows[n]];
    assert rows[n..][1..] == rows[n + 1..];
    RemovedKeysSnoc(rows[..n], rows[n]);
  }

  lemma CountStep(rows: seq<Row>, n: nat)
    requires n < |rows|
    ensures var s, r := Count(rows[..n]), rows[n];
      Count(rows[..n + 1]) ==
        HydrateStats(s.received + 1, s.upserted + (if r.Upsert? then 1 else 0),
                     s.deleted + (if r.Remove? then 1 else 0), s.skipped + (if r.Skip? then 1 else 0))
  {
    assert rows[..n + 1][..n] == rows[..n];
  }

  lemma TrackUpsert(rows: seq<Row>, n: nat, pending: seq<Record>, at: seq<nat>)
    requires n < |rows| && rows[n].Upsert? && Tracked(rows[..n], pending, at)
    ensures Tracked(rows[..n + 1], pending + [rows[n].record], at + [n])
  {
  }

  lemma StepUpsert(t: Table, pending: seq<Record>, rows: seq<Row>, n: nat, group: nat)
    requires n < |rows| && rows[n].Upsert?
    ensures var grown := pending + [rows[n].record];
      FlushedUpserts(t, pending, rows[n..], group) ==
        if |grown| >= group then FlushedUpserts(Flush(t, grown), [], rows[n + 1..], group)
        else FlushedUpserts(t, grown, rows[n + 1..], group)
  {
    assert rows[n..][1..] == rows[n + 1..] && rows[n..][0] == rows[n];
  }

  function Collected(l: Locals, rows: seq<Row>, n: nat): Locals
    requires n < |rows| && rows[n].Upsert?
  {
    var rec := rows[n].record;
    Locals(Count(rows[..n + 1]), l.pending + [rec],
           l.coords + (if RecordPoint(rec).Some? then [(rec.key, RecordPoint(rec).value)] else []),
           l.nullCoordKeys + (if RecordPoint(rec).None? then {rec.key} else {}), l.deletes)
  }

  lemma CollectedMatches(l: Locals, rows: seq<Row>, n: nat)
    requires n < |rows| && rows[n].Upsert? && l.coords == PointsOf(l.pending)
    requires l.nullCoordKeys == UnplacedKeys(l.pending)
    requires l.deletes == RemovedKeys(rows[..n])
    ensures var c := Collected(l, rows, n);
      c.coords == PointsOf(c.pending) && c.nullCoordKeys == UnplacedKeys(c.pending) &&
        c.deletes == RemovedKeys(rows[..n + 1])
  {
    PendingSnoc(l.pending, rows[n].record);
    RemovedKeysSnoc(rows[..n], rows[n]);
    assert rows[..n + 1] == rows[..n] + [rows[n]];
  }

  /** Collecting an upsert that does not fill the group, or that fills it and is flushed. */
  lemma PassOverUpsert(start: Table, rows: seq<Row>, n: nat, group: nat, listings: Table, l: Locals, at: seq<nat>)
      returns (l': Locals)
    requires n < |rows| && rows[n].Upsert? && LoopState(start, rows, n, group, listings, l, at)
    ensures var rec := rows[n].record;
      l' == Locals(Count(rows[..n + 1]), l.pending + [rec],
                   l.coords + (if RecordPoint(rec).Some? then [(rec.key, RecordPoint(rec).value)] else []),
                   l.nullCoordKeys + (if RecordPoint(rec).None? then {rec.key} else {}), l.deletes)
    ensures l'.coords == PointsOf(l'.pending) && l'.nullCoordKeys == UnplacedKeys(l'.pending)
    ensures Tracked(rows[..n + 1], l'.pending, at + [n])
    ensures |l'.pending| < group ==> LoopState(start, rows, n + 1, group, listings, l', at + [n])
    ensures |l'.pending| >= group ==>
      LoopState(start, rows, n + 1, group, Flush(listings, l'.pending), Locals(l'.stats, [], [], {}, l.deletes), [])
  {
    l' := Collected(l, rows, n);
    CollectedMatches(l, rows, n);
    TrackUpsert(rows, n, l.pending, at);
    StepUpsert(listings, l.pending, rows, n, group);
    if |l'.pending| >= group {
      FlushedState(start, rows, n, group, listings, l');
    }
  }

  lemma FlushedState(start: Table, rows: seq<Row>, n: nat, group: nat, listings: Table, l: Locals)
    requires n < |rows| && l.stats == Count(rows[..n + 1]) && l.deletes == RemovedKeys(rows[..n + 1])
    requires FlushedUpserts(start, [], rows, group) ==
      FlushedUpserts(Flush(listings, l.pending), [], rows[n + 1..], group)
    ensures LoopState(start, rows, n + 1, group, Flush(listings, l.pending), Locals(l.stats, [], [], {}, l.deletes), [])
  {
  }

  /** What the transactions so far amount to: flushes of the upserts read, but for those pending. */
  ghost predicate Progress(start: Table, rows: seq<Row>, n: nat, listings: Table, cs: seq<Commit>, at: seq<nat>)
    requires n <= |rows|
  {
    && listings == Replayed(start, cs)
    && (forall i :: 0 <= i < |cs| ==> cs[i].Flushed? && Describes(rows, cs[i]))
    && AtsOf(cs) + at == UpsertPositions(rows, n)
  }

  lemma ProgressPassed(start: Table, rows: seq<Row>, n: nat, listings: Table, cs: seq<Commit>, at: seq<nat>)
    requires n < |rows| && Progress(start, rows, n, listings, cs, at)
    ensures Progress(start, rows, n + 1, listings, cs, if rows[n].Upsert? then at + [n] else at)
  {
    if rows[n].Upsert? {
      assert AtsOf(cs) + (at + [n]) == AtsOf(cs) + at + [n];
    } else {
      assert UpsertPositions(rows, n) + [] == UpsertPositions(rows, n);
    }
  }

  lemma ProgressFlushed(start: Table, rows: seq<Row>, n: nat, listings: Table, cs: seq<Commit>, at: seq<nat>,
                        pending: seq<Record>)
    requires n <= |rows| && Progress(start, rows, n, listings, cs, at) && Tracked(rows, pending, at)
    ensures Progress(start, rows, n, Flush(listings, pending), cs + [Flushed(pending, at)], [])
  {
    hide Flush;
    var c := Flushed(pending, at);
    assert (cs + [c])[..|cs|] == cs;
    assert AtsOf(cs + [c]) + [] == AtsOf(cs) + at;
  }

  lemma {:induction false} ReplayedConcat(t: Table, a: seq<Commit>, b: seq<Commit>)
    ensures Replayed(t, a + b) == Replayed(Replayed(t, a), b)
  {
    if b == [] {
      assert a + b == a;
    } else {
      ReplayedConcat(t, a, b[..|b| - 1]);
      assert (a + b)[..|a + b| - 1] == a + b[..|b| - 1];
    }
  }

  /** cs deletes the keys of a set in disjoint parts. */
  ghost predicate DeletesAll(cs: seq<Commit>, keys: set<Key>) {
    (forall i :: 0 <= i < |cs| ==> cs[i].Deleted? && cs[i].keys <= keys) && KeysOf(cs) == keys && DeletesApart(cs)
  }

  lemma {:induction false} DeletesAddNoFlush(a: seq<Commit>, b: seq<Commit>)
    requires (forall i :: 0 <= i < |a| ==> a[i].Flushed?) && (forall i :: 0 <= i < |b| ==> b[i].Deleted?)
    ensures AtsOf(a + b) == AtsOf(a) && KeysOf(a + b) == KeysOf(b)
  {
    if b == [] {
      assert a + b == a;
      NoKeys(a);
    } else {
      DeletesAddNoFlush(a, b[..|b| - 1]);
      assert (a + b)[..|a + b| - 1] == a + b[..|b| - 1];
      assert AtsOf(a) + [] == AtsOf(a);
    }
  }

  lemma {:induction false} NoKeys(cs: seq<Commit>)
    requires forall i :: 0 <= i < |cs| ==> cs[i].Flushed?
    ensures KeysOf(cs) == {}
  {
    if cs != [] { NoKeys(cs[..|cs| - 1]); }
  }

  /** Flushes of all upserts and then deletes of all removed keys are what a call has to do. */
  lemma CallPerforms(start: Table, rows: seq<Row>, flushed: Table, flushes: seq<Commit>, deletes: seq<Commit>)
    requires Progress(start, rows, |rows|, flushed, flushes, []) && DeletesAll(deletes, RemovedKeys(rows))
    ensures Performs(rows, flushes + deletes) && Replayed(start, flushes + deletes) == Replayed(flushed, deletes)
  {
    ReplayedConcat(start, flushes, deletes);
    DeletesAddNoFlush(flushes, deletes);
    assert AtsOf(flushes) + [] == AtsOf(flushes);
  }

  lemma NothingRead(start: Table, rows: seq<Row>, group: nat)
    ensures LoopState(start, rows, 0, group, start, Locals(HydrateStats(0, 0, 0, 0), [], [], {}, {}), [])
    ensures Progress(start, rows, 0, start, [], [])
  {
    assert rows[0..] == rows && rows[..0] == [];
  }

  // ---- The writer ----------------------------------------------------------------------------

  class ListingMirrorWriter {
    var listings: Table
    const upsertChunk: nat
    /** The transactions of the last call, oldest first. */
    ghost var commits: seq<Commit>

    constructor (initial: Table, chunk: int)
      ensures listings == initial && commits == []
      ensures upsertChunk == if chunk <= 0 then 250 else chunk
    {
      listings, commits := initial, [];
      upsertChunk := if chunk <= 0 then 250 else chunk;
    }

    /** The table ends as Hydrated says; with distinct keys that is the rows applied one at a time. The
        transactions committed on the way put each upsert in one flush, in row order, and each removed key in
        one delete. */
    method HydrateReplicaBatch(rows: seq<Row>) returns (stats: HydrateStats)
      modifies this
      ensures stats == Count(rows)
      ensures listings == Hydrated(old(listings), rows, upsertChunk)
      ensures DistinctKeys(rows) ==> listings == ApplyRows(old(listings), rows)
      ensures listings == Replayed(old(listings), commits) && Performs(rows, commits)
    {
      var l := Locals(HydrateStats(0, 0, 0, 0), [], [], {}, {});
      ghost var at: seq<nat> := [];
      ghost var start := listings;
      commits := [];
      NothingRead(start, rows, upsertChunk);
      for n := 0 to |rows|
        invariant LoopState(start, rows, n, upsertChunk, listings, l, at)
        invariant Progress(start, rows, n, listings, commits, at)
      {
        l, at := ReadRow(start, rows, n, rows[n], l, at);
      }
      FinishBatch(start, rows, l, at);
      if DistinctKeys(rows) { HydratedIsRowAtATime(start, rows, upsertChunk); }
      stats := l.stats;
      assert rows[..|rows|] == rows;
    }

    /** The end of HydrateReplicaBatch: the last flush and the deletes. */
    method FinishBatch(ghost start: Table, ghost rows: seq<Row>, l: Locals, ghost at: seq<nat>)
      requires LoopState(start, rows, |rows|, upsertChunk, listings, l, at)
      requires Progress(start, rows, |rows|, listings, commits, at)
      modifies this
      ensures listings == Hydrated(start, rows, upsertChunk)
      ensures listings == Replayed(start, commits) && Performs(rows, commits)
    {
      assert rows[..|rows|] == rows && rows[|rows|..] == [];
      LastFlush(start, rows, commits, l.pending, at);
      FlushPending(rows, l.pending, l.coords, l.nullCoordKeys, at);
      ghost var flushes, flushed := commits, listings;
      ghost var deletes := FlushDeletes(l.deletes);
      CallPerforms(start, rows, flushed, flushes, deletes);
    }

    /** One pass of the row loop. */
    method ReadRow(ghost start: Table, ghost rows: seq<Row>, ghost n: nat, row: Row, l: Locals, ghost at: seq<nat>)
      returns (l': Locals, ghost at': seq<nat>)
      requires n < |rows| && row == rows[n] && LoopState(start, rows, n, upsertChunk, listings, l, at)
      requires Progress(start, rows, n, listings, commits, at)
      modifies this
      ensures LoopState(start, rows, n + 1, upsertChunk, listings, l', at')
      ensures Progress(start, rows, n + 1, listings, commits, at')
    {
      if row.Upsert? {
        l', at' := ReadUpsert(start, rows, n, row.record, l, at);
      } else {
        CountStep(rows, n);
        ProgressPassed(start, rows, n, listings, commits, at);
        PassOverOther(start, rows, n, upsertChunk, listings, l, at);
        l', at' := l.(stats := l.stats.(received := l.stats.received + 1)), at;
        if row.Remove? {
          l' := l'.(deletes := l'.deletes + {row.key}, stats := l'.stats.(deleted := l'.stats.deleted + 1));
        } else {
          l' := l'.(stats := l'.stats.(skipped := l'.stats.skipped + 1));
        }
      }
    }

    method ReadUpsert(ghost start: Table, ghost rows: seq<Row>, ghost n: nat, rec: Record, l: Locals,
                      ghost at: seq<nat>)
      returns (l': Locals, ghost at': seq<nat>)
      requires n < |rows| && rows[n] == Upsert(rec) && LoopState(start, rows, n, upsertChunk, listings, l, at)
      requires Progress(start, rows, n, listings, commits, at)
      modifies this
      ensures LoopState(start, rows, n + 1, upsertChunk, listings, l', at')
      ensures Progress(start, rows, n + 1, listings, commits, at')
    {
      CountStep(rows, n);
      ghost var next := PassOverUpsert(start, rows, n, upsertChunk, listings, l, at);
      var stats := l.stats.(received := l.stats.received + 1, upserted := l.stats.upserted + 1);
      var placed := rec.latitude.Some? && rec.longitude.Some?;
      l' := Locals(stats, l.pending + [rec],
                   if placed then l.coords + [(rec.key, Point(rec.longitude.value, rec.latitude.value))] else l.coords,
                   if placed then l.nullCoordKeys else l.nullCoordKeys + {rec.key}, l.deletes);
      assert l' == next;
      ProgressPassed(start, rows, n, listings, commits, at);
      at' := at + [n];
      if |l'.pending| >= upsertChunk {
        TrackedInAll(rows, n + 1, l'.pending, at');
        ProgressFlushed(start, rows, n + 1, listings, commits, at', l'.pending);
        FlushPending(rows, l'.pending, l'.coords, l'.nullCoordKeys, at');
        l', at' := l'.(pending := [], coords := [], nullCoordKeys := {}), [];
      }
    }

    /** The flush closure: one transaction, skipped when there is nothing to write. */
    method FlushPending(ghost rows: seq<Row>, pending: seq<Record>, coords: seq<Placement>,
                        nullCoordKeys: set<Key>, ghost at: seq<nat>)
      requires coords == PointsOf(pending) && nullCoordKeys == UnplacedKeys(pending)
      modifies this
      ensures listings == Flush(old(listings), pending) && commits == old(commits) + LastCommit(pending, at)
    {
      PlacePointsIsPlaceAll(UpsertAll(listings, pending), pending);
      if |pending| == 0 && |coords| == 0 && |nullCoordKeys| == 0 {
        assert ClearCoordinates(listings, {}) == listings;
        return;
      }
      for i := 0 to |pending|
        invariant listings == UpsertAll(old(listings), pending[..i]) && commits == old(commits)
      {
        assert pending[..i + 1][..i] == pending[..i];
        var rec := pending[i];
        listings := listings[rec.key := UpsertResult(rec, Get(listings, rec.key))];
      }
      assert pending[..|pending|] == pending;
      FlushCoordinates(coords);
      FlushNullCoordinates(nullCoordKeys);
      commits := commits + [Flushed(pending, at)];
    }

    method FlushCoordinates(pairs: seq<Placement>)
      modifies this`listings
      ensures listings == PlacePoints(old(listings), pairs)
    {
      var i := 0;
      while i < |pairs|
        invariant 0 <= i <= |pairs|
        invariant listings == PlacePoints(old(listings), pairs[..i])
      {
        var end := if i + SEGMENT > |pairs| then |pairs| else i + SEGMENT;
        // UPDATE listings SET coordinates = v.geom FROM (VALUES ...)
        for j := i to end
          invariant listings == PlacePoints(old(listings), pairs[..j])
        {
          assert pairs[..j + 1][..j] == pairs[..j];
          var k := pairs[j].0;
          if k in listings {
            listings := listings[k := listings[k].(coordinates := Some(pairs[j].1))];
          }
        }
        i := end;
      }
      assert pairs[..|pairs|] == pairs;
    }

    method FlushNullCoordinates(grouped: set<Key>)
      modifies this`listings
      ensures listings == ClearCoordinates(old(listings), grouped)
    {
      var keys := Enumerate(grouped);
      var i := 0;
      assert ClearCoordinates(listings, ToSet(keys[..0])) == listings;
      while i < |keys|
        invariant 0 <= i <= |keys|
        invariant listings == ClearCoordinates(old(listings), ToSet(keys[..i]))
      {
        var end := if i + SEGMENT > |keys| then |keys| else i + SEGMENT;
        ToSetConcat(keys, i, end);
        listings := ClearCoordinates(listings, ToSet(keys[i..end]));
        i := end;
      }
      assert keys[..|keys|] == keys;
    }

    /** One DELETE statement per segment, each its own commit. */
    method FlushDeletes(grouped: set<Key>) returns (ghost deletes: seq<Commit>)
      modifies this
      ensures listings == old(listings) - grouped && listings == Replayed(old(listings), deletes)
      ensures commits == old(commits) + deletes && DeletesAll(deletes, grouped)
    {
      var keys := Enumerate(grouped);
      var i := 0;
      deletes := [];
      assert ToSet(keys[..0]) == {} && Replayed(listings, deletes) == listings && DeletesAll(deletes, {});
      hide Replayed, DeletesAll;
      while i < |keys|
        invariant 0 <= i <= |keys|
        invariant listings == old(listings) - ToSet(keys[..i]) && listings == Replayed(old(listings), deletes)
        invariant commits == old(commits) + deletes && DeletesAll(deletes, ToSet(keys[..i]))
      {
        var end := if i + SEGMENT > |keys| then |keys| else i + SEGMENT;
        var segment := ToSet(keys[i..end]);
        ToSetConcat(keys, i, end);
        SegmentApart(keys, i, end);
        DeletesSnoc(old(listings), deletes, ToSet(keys[..i]), segment);
        listings := listings - segment;
        commits, deletes := commits + [Deleted(segment)], deletes + [Deleted(segment)];
        i := end;
      }
      assert keys[..|keys|] == keys;
    }
  }

  /** The commit of a flush, if it has anything to write. */
  function LastCommit(pending: seq<Record>, at: seq<nat>): seq<Commit> {
    if pending == [] then [] else [Flushed(pending, at)]
  }

  lemma LastFlush(start: Table, rows: seq<Row>, cs: seq<Commit>, pending: seq<Record>, at: seq<nat>)
    requires Progress(start, rows, |rows|, Replayed(start, cs), cs, at) && Tracked(rows, pending, at)
    ensures Progress(start, rows, |rows|, Flush(Replayed(start, cs), pending), cs + LastCommit(pending, at), [])
  {
    if pending == [] {
      assert cs + [] == cs && at == [];
      assert ClearCoordinates(Replayed(start, cs), UnplacedKeys([])) == Replayed(start, cs);
    } else {
      ProgressFlushed(start, rows, |rows|, Replayed(start, cs), cs, at, pending);
    }
  }

  lemma TrackedInAll(rows: seq<Row>, n: nat, pending: seq<Record>, at: seq<nat>)
    requires n <= |rows| && Tracked(rows[..n], pending, at)
    ensures Tracked(rows, pending, at)
  {
  }

  lemma DeletesSnoc(t: Table, cs: seq<Commit>, done: set<Key>, more: set<Key>)
    requires DeletesAll(cs, done) && done !! more
    ensures DeletesAll(cs + [Deleted(more)], done + more)
    ensures Replayed(t, cs + [Deleted(more)]) == Replayed(t, cs) - more
  {
    var all := cs + [Deleted(more)];
    assert all[..|cs|] == cs;
  }

  lemma SegmentApart(keys: seq<Key>, i: nat, end: nat)
    requires i <= end <= |keys| && forall a, b :: 0 <= a < b < |keys| ==> keys[a] != keys[b]
    ensures ToSet(keys[..i]) !! ToSet(keys[i..end])
  {
    forall k | k in ToSet(keys[..i]) ensures k !in ToSet(keys[i..end]) {
      var a :| 0 <= a < i && keys[..i][a] == k;
      assert forall b :: 0 <= b < end - i ==> keys[i..end][b] == keys[i + b] != keys[a];
    }
  }

  lemma ToSetConcat(keys: seq<Key>, i: nat, end: nat)
    requires i <= end <= |keys|
    ensures ToSet(keys[..end]) == ToSet(keys[..i]) + ToSet(keys[i..end])
  {
    forall j | 0 <= j < end ensures keys[j] in ToSet(keys[..i]) + ToSet(keys[i..end]) {
      if j < i { assert keys[..i][j] == keys[j]; } else { assert keys[i..end][j - i] == keys[j]; }
    }
    forall k | k in ToSet(keys[..i]) ensures k in ToSet(keys[..end]) {
      var j :| 0 <= j < i && keys[..i][j] == k;
      assert keys[..end][j] == k;
    }
    forall k | k in ToSet(keys[i..end]) ensures k in ToSet(keys[..end]) {
      var j :| 0 <= j < end - i && keys[i..end][j] == k;
      assert keys[..end][i + j] == k;
    }
  }

  /** The keys of a set in some order, each once. */
  method Enumerate(s: set<Key>) returns (keys: seq<Key>)
    ensures ToSet(keys) == s && forall a, b :: 0 <= a < b < |keys| ==> keys[a] != keys[b]
  {
    keys := [];
    var rest := s;
    while rest != {}
      invariant ToSet(keys) + rest == s && ToSet(keys) !! rest
      invariant forall a, b :: 0 <= a < b < |keys| ==> keys[a] != keys[b]
      decreases rest
    {
      var k :| k in rest;
      ghost var before := keys;
      assert forall a :: 0 <= a < |keys| ==> keys[a] in ToSet(keys);
      keys := keys + [k];
      assert keys[..|before|] == before && keys[|before|..|keys|] == [k];
      ToSetConcat(keys, |before|, |keys|);
      assert keys[..|keys|] == keys && [k][0] == k;
      rest := rest - {k};
    }
  }
}
