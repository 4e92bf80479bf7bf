/** Which pages may be hydrated chunk by chunk, in any order and with any retries
    (internal/service/sync/replica_page.go, internal/service/sync/listing_mirror.go). A page may hold a listing many
    times.

    A listing is looked at aspect by aspect: every upsert of it overwrites the scalar columns and the position,
    and a navigation column when it has a value for it. The last upsert that speaks of an aspect decides it. */
module ReplicaPageOrder {
  import opened Wrappers
  import opened ListingMirror
  import opened ListingMirrorOrder
  import opened ListingMirrorWriting
  import opened ReplicaPages

  // ---- Aspects -----------------------------------------------------------------------------------

  datatype Column = Media | Unit | Room | OpenHouse

  /** flag is the low-risk flag that an insert of the listing sets. */
  datatype Aspect = Presence | Scalar | Navigated(column: Column) | Flood(flag: bool)

  datatype Value =
    | There(yes: bool)
    | Missing
    | ScalarValue(columns: string, latitude: Option<real>, longitude: Option<real>, coordinates: Option<Point>)
    | NavigationValue(text: Option<string>)
    | FloodValue(zone: Option<string>, lowRisk: bool)

  function NavigationOf(n: Navigation, c: Column): Option<string> {
    match c
    case Media => n.media
    case Unit => n.unit
    case Room => n.room
    case OpenHouse => n.openHouse
  }

  function View(p: Option<Listing>, f: Aspect): Value {
    match f
    case Presence => There(p.Some?)
    case Scalar =>
      if p.None? then Missing else
        ScalarValue(p.value.columns, p.value.latitude, p.value.longitude, p.value.coordinates)
    case Navigated(c) => NavigationValue(if p.Some? then NavigationOf(p.value.navigation, c) else None)
    case Flood(flag) => if p.Some? then FloodValue(p.value.femaZone, p.value.lowRisk) else FloodValue(None, flag)
  }

  /** What an upsert of the record makes of an aspect; None if it leaves the aspect as it is. */
  function Said(rec: Record, f: Aspect): Option<Value> {
    match f
    case Scalar => Some(ScalarValue(rec.columns, rec.latitude, rec.longitude, RecordPoint(rec)))
    case Navigated(c) =>
      if NavigationOf(rec.navigation, c).Some? then Some(NavigationValue(NavigationOf(rec.navigation, c))) else None
    case _ => None
  }

  /** What the records say of an aspect of listing k: the last that speaks of it counts. */
  function Shown(recs: seq<Record>, k: Key, f: Aspect): Option<Value> {
    if recs == [] then None else
      var n := |recs| - 1;
      if recs[n].key == k && Said(recs[n], f).Some? then Said(recs[n], f) else Shown(recs[..n], k, f)
  }

  function Or(a: Option<Value>, b: Value): Value { if a.Some? then a.value else b }

  predicate Flagged(recs: seq<Record>, k: Key, f: Aspect) {
    f.Flood? ==> forall i :: 0 <= i < |recs| && recs[i].key == k ==> recs[i].lowRisk == f.flag
  }

  lemma UpsertView(rec: Record, p: Option<Listing>, f: Aspect)
    requires !f.Presence? && (f.Flood? ==> rec.lowRisk == f.flag)
    ensures View(RowResult(Upsert(rec), p), f) == Or(Said(rec, f), View(p, f))
  {
  }

  lemma {:induction false} RecordsView(p: Option<Listing>, recs: seq<Record>, k: Key, f: Aspect)
    requires !f.Presence? && Flagged(recs, k, f)
    ensures View(RecordsAt(p, recs, k), f) == Or(Shown(recs, k, f), View(p, f))
  {
    hide RowResult, View, Said;
    if recs != [] {
      var n := |recs| - 1;
      RecordsView(p, recs[..n], k, f);
      if recs[n].key == k { UpsertView(recs[n], RecordsAt(p, recs[..n], k), f); }
    }
  }

  /** Equal in every aspect is equal. */
  lemma SameViews(p: Option<Listing>, q: Option<Listing>, flag: bool)
    requires forall f: Aspect :: !f.Presence? && (f.Flood? ==> f.flag == flag) ==> View(p, f) == View(q, f)
    ensures p == q
  {
    assert View(p, Scalar) == View(q, Scalar);
    assert View(p, Flood(flag)) == View(q, Flood(flag));
    assert View(p, Navigated(Media)) == View(q, Navigated(Media));
    assert View(p, Navigated(Unit)) == View(q, Navigated(Unit));
    assert View(p, Navigated(Room)) == View(q, Navigated(Room));
    assert View(p, Navigated(OpenHouse)) == View(q, Navigated(OpenHouse));
  }

  // ---- The last that speaks ----------------------------------------------------------------------

  predicate Speaks(recs: seq<Record>, k: Key, f: Aspect, i: nat) {
    i < |recs| && recs[i].key == k && Said(recs[i], f).Some?
  }

  lemma {:induction false} ShownBy(recs: seq<Record>, k: Key, f: Aspect, i: nat)
    requires Speaks(recs, k, f, i) && forall j: nat :: j > i ==> !Speaks(recs, k, f, j)
    ensures Shown(recs, k, f) == Said(recs[i], f)
  {
    var n := |recs| - 1;
    if i < n {
      assert !Speaks(recs, k, f, n);
      assert forall j: nat :: j < n ==> (Speaks(recs[..n], k, f, j) <==> Speaks(recs, k, f, j));
      ShownBy(recs[..n], k, f, i);
    }
  }

  lemma {:induction false} ShownByNone(recs: seq<Record>, k: Key, f: Aspect)
    requires forall j: nat :: !Speaks(recs, k, f, j)
    ensures Shown(recs, k, f) == None
  {
    if recs != [] {
      var n := |recs| - 1;
      assert !Speaks(recs, k, f, n);
      assert forall j: nat :: Speaks(recs[..n], k, f, j) ==> Speaks(recs, k, f, j);
      ShownByNone(recs[..n], k, f);
    }
  }

  lemma {:induction false} ShownSome(recs: seq<Record>, k: Key, f: Aspect, i: nat)
    requires Speaks(recs, k, f, i)
    ensures Shown(recs, k, f).Some?
  {
    if i < |recs| - 1 {
      assert Speaks(recs[..|recs| - 1], k, f, i);
      ShownSome(recs[..|recs| - 1], k, f, i);
    }
  }

  lemma {:induction false} Speaker(recs: seq<Record>, k: Key, f: Aspect) returns (i: nat)
    requires Shown(recs, k, f).Some?
    ensures Speaks(recs, k, f, i) && Shown(recs, k, f) == Said(recs[i], f)
    ensures forall j: nat :: j > i ==> !Speaks(recs, k, f, j)
  {
    var n := |recs| - 1;
    if Speaks(recs, k, f, n) {
      i := n;
    } else {
      i := Speaker(recs[..n], k, f);
      assert forall j: nat :: j < n ==> (Speaks(recs[..n], k, f, j) <==> Speaks(recs, k, f, j));
    }
  }

  // ---- One flush ---------------------------------------------------------------------------------

  /** The aspect is the position, and the last record of the key has one but not all of its records do. */
  ghost predicate Cleared(recs: seq<Record>, k: Key, f: Aspect) {
    Shown(recs, k, f).Some? && Positioned(Shown(recs, k, f).value) && !AllPlaced(recs, k)
  }

  predicate Positioned(v: Value) { v.ScalarValue? && v.coordinates.Some? }

  function WithPosition(v: Value, c: Option<Point>): Value { if v.ScalarValue? then v.(coordinates := c) else v }

  lemma BareView(p: Option<Listing>, q: Option<Listing>, f: Aspect)
    requires Bare(p) == Bare(q) && !f.Scalar?
    ensures View(p, f) == View(q, f)
  {
  }

  lemma BareScalar(p: Listing, q: Listing)
    requires Bare(Some(p)) == Bare(Some(q))
    ensures View(Some(p), Scalar) == WithPosition(View(Some(q), Scalar), p.coordinates)
  {
    assert p.(coordinates := None) == q.(coordinates := None);
  }

  lemma FlushedScalar(t: Table, recs: seq<Record>, k: Key, i: nat)
    requires LastRecord(recs, k, i)
    ensures Shown(recs, k, Scalar) == Said(recs[i], Scalar)
    ensures View(Get(Flush(t, recs), k), Scalar) ==
      WithPosition(Shown(recs, k, Scalar).value, if AllPlaced(recs, k) then RecordPoint(recs[i]) else None)
  {
    hide Flush, RowResult;
    FlushAt(t, recs, k, i, Get(t, k));
    RecordsView(Get(t, k), recs, k, Scalar);
    assert Speaks(recs, k, Scalar, i);
    ShownBy(recs, k, Scalar, i);
    BareScalar(Get(Flush(t, recs), k).value, RecordsAt(Get(t, k), recs, k).value);
  }

  /** A flush shows what its records say, but for a position that is cleared. */
  lemma FlushView(t: Table, recs: seq<Record>, k: Key, f: Aspect)
    requires !f.Presence? && Flagged(recs, k, f)
    ensures var shown := Or(Shown(recs, k, f), View(Get(t, k), f));
      View(Get(Flush(t, recs), k), f) == if Cleared(recs, k, f) then WithPosition(shown, None) else shown
  {
    hide Flush, RowResult, View;
    if j :| 0 <= j < |recs| && recs[j].key == k {
      var i := LastIndex(recs, k, j);
      if f.Scalar? {
        FlushedScalar(t, recs, k, i);
      } else {
        FlushAt(t, recs, k, i, Get(t, k));
        RecordsView(Get(t, k), recs, k, f);
        BareView(Get(Flush(t, recs), k), RecordsAt(Get(t, k), recs, k), f);
        if Shown(recs, k, f).Some? { NotPositioned(recs, k, f); }
      }
    } else {
      FlushPasses(t, recs, k);
      ShownByNone(recs, k, f);
    }
  }

  lemma NotPositioned(recs: seq<Record>, k: Key, f: Aspect)
    requires !f.Scalar? && Shown(recs, k, f).Some?
    ensures !Positioned(Shown(recs, k, f).value)
  {
    var i := Speaker(recs, k, f);
  }

  // ---- The last word of a chunk ------------------------------------------------------------------

  ghost predicate SpeaksAt(rows: seq<Row>, k: Key, f: Aspect, j: nat) {
    UpsertOf(rows, k, j) && Said(rows[j].record, f).Some?
  }

  /** Row q decides the aspect: a delete of k its presence, the last upsert that speaks of it any other. */
  ghost predicate Ends(rows: seq<Row>, k: Key, f: Aspect, q: nat) {
    if f.Presence? then q < |rows| && rows[q] == Remove(k)
    else SpeaksAt(rows, k, f, q) && forall j: nat :: j > q ==> !SpeaksAt(rows, k, f, j)
  }

  /** Whenever the rows are written to the end, the aspect ends at the target. */
  ghost predicate Fits(rows: seq<Row>, k: Key, f: Aspect, target: Value) {
    if f.Presence? then target == There(false) && (Foreign(k, rows) || !NeverRemoved(rows, k))
    else
      var recs := Records(rows);
      && NeverRemoved(rows, k) && Flagged(recs, k, f)
      && (Shown(recs, k, f).Some? ==> Shown(recs, k, f) == Some(target) && !Cleared(recs, k, f))
  }

  lemma LastSpeaker(rows: seq<Row>, k: Key, f: Aspect, j: nat) returns (q: nat)
    requires !f.Presence? && SpeaksAt(rows, k, f, j)
    ensures q >= j && Ends(rows, k, f, q)
    decreases |rows| - j
  {
    if m: nat :| m > j && SpeaksAt(rows, k, f, m) {
      q := LastSpeaker(rows, k, f, m);
    } else {
      q := j;
    }
  }

  /** The row that ends the aspect is the last record that speaks of it. */
  lemma EndsShown(rows: seq<Row>, k: Key, f: Aspect, q: nat)
    requires !f.Presence? && Ends(rows, k, f, q)
    ensures Shown(Records(rows), k, f) == Said(rows[q].record, f)
  {
    var recs, n := Records(rows), |Records(rows[..q])|;
    RecordOfRow(rows, q);
    assert Speaks(recs, k, f, n);
    forall m: nat | m > n ensures !Speaks(recs, k, f, m) {
      if m < |recs| {
        var j := RowOfRecord(rows, m);
        RecordOfRow(rows, j);
        if j < q { RecordsBefore(rows, j, q); }
        assert !SpeaksAt(rows, k, f, j);
      }
    }
    ShownBy(recs, k, f, n);
  }

  lemma SpokenIn(rows: seq<Row>, k: Key, f: Aspect, j: nat)
    requires SpeaksAt(rows, k, f, j)
    ensures Shown(Records(rows), k, f).Some?
  {
    RecordOfRow(rows, j);
    ShownSome(Records(rows), k, f, |Records(rows[..j])|);
  }

  lemma SpokenBy(rows: seq<Row>, k: Key, f: Aspect) returns (j: nat)
    requires Shown(Records(rows), k, f).Some?
    ensures SpeaksAt(rows, k, f, j)
  {
    var i := Speaker(Records(rows), k, f);
    j := RowOfRecord(rows, i);
    RecordOfRow(rows, j);
  }

  // ---- One transaction ---------------------------------------------------------------------------

  /** The upserts of a call that are left are its last ones, and no delete has gone before them. */
  ghost predicate Orderly(rows: seq<Row>, todo: set<nat>) {
    && (forall p: nat, q: nat :: p in todo && p < q < |rows| && rows[p].Upsert? && rows[q].Upsert? ==> q in todo)
    && (forall p: nat, r: nat :: p in todo && p < |rows| && rows[p].Upsert? && r < |rows| && rows[r].Remove? ==>
          r in todo)
  }

  lemma CommitsKeepOrder(u: Table, rows: seq<Row>, todo: set<nat>, sub: set<nat>, v: Table)
    requires Orderly(rows, todo) && Commits(u, rows, todo, sub, v)
    ensures Orderly(rows, todo - sub)
  {
  }

  /** What decides the aspect is still to be written. */
  ghost predicate Unsaid(rows: seq<Row>, k: Key, f: Aspect, todo: set<nat>) {
    (exists q :: Ends(rows, k, f, q)) && forall q :: Ends(rows, k, f, q) ==> q in todo
  }

  /** A transaction leaves the aspect alone, or brings it to the target, or the rest of its call will. */
  ghost predicate Leads(u: Table, rows: seq<Row>, todo: set<nat>, sub: set<nat>, v: Table, k: Key, f: Aspect,
                        target: Value)
  {
    || View(Get(v, k), f) == target
    || Unsaid(rows, k, f, todo - sub)
    || (View(Get(v, k), f) == View(Get(u, k), f) && forall q :: Ends(rows, k, f, q) ==> q !in sub)
  }

  lemma FlushedFlags(rows: seq<Row>, recs: seq<Record>, at: seq<nat>, k: Key, f: Aspect)
    requires Tracked(rows, recs, at) && Flagged(Records(rows), k, f)
    ensures Flagged(recs, k, f)
    ensures AllPlaced(Records(rows), k) ==> AllPlaced(recs, k)
  {
    forall i | 0 <= i < |recs| ensures exists j :: 0 <= j < |Records(rows)| && Records(rows)[j] == recs[i] {
      RecordOfRow(rows, at[i]);
    }
  }

  lemma FlushedEnd(rows: seq<Row>, recs: seq<Record>, at: seq<nat>, k: Key, f: Aspect, q: nat)
    requires !f.Presence? && Tracked(rows, recs, at) && Ends(rows, k, f, q) && q in at
    ensures Shown(recs, k, f) == Said(rows[q].record, f)
  {
    var m: nat :| m < |at| && at[m] == q;
    assert rows[at[m]] == Upsert(recs[m]);
    assert Speaks(recs, k, f, m);
    forall j: nat | j > m ensures !Speaks(recs, k, f, j) {
      assert j < |recs| ==> rows[at[j]] == Upsert(recs[j]) && !SpeaksAt(rows, k, f, at[j]);
    }
    ShownBy(recs, k, f, m);
  }

  /** A flush that writes the deciding row brings the aspect to the target. */
  lemma FlushEnds(u: Table, rows: seq<Row>, recs: seq<Record>, at: seq<nat>, k: Key, f: Aspect, target: Value, q: nat)
    requires !f.Presence? && Fits(rows, k, f, target) && Tracked(rows, recs, at) && Ends(rows, k, f, q) && q in at
    ensures View(Get(Flush(u, recs), k), f) == target
  {
    EndsShown(rows, k, f, q);
    FlushedEnd(rows, recs, at, k, f, q);
    FlushedFlags(rows, recs, at, k, f);
    hide View, Flush, Said;
    FlushView(u, recs, k, f);
  }

  /** A flush of rows that do not speak of the aspect leaves it. */
  lemma FlushSilent(u: Table, rows: seq<Row>, recs: seq<Record>, at: seq<nat>, k: Key, f: Aspect)
    requires !f.Presence? && Flagged(Records(rows), k, f) && Tracked(rows, recs, at)
    requires forall j :: j in at ==> !SpeaksAt(rows, k, f, j)
    ensures View(Get(Flush(u, recs), k), f) == View(Get(u, k), f)
  {
    forall j: nat ensures !Speaks(recs, k, f, j) {
      assert j < |recs| ==> rows[at[j]] == Upsert(recs[j]) && !SpeaksAt(rows, k, f, at[j]);
    }
    ShownByNone(recs, k, f);
    FlushedFlags(rows, recs, at, k, f);
    hide View, Flush, Said;
    FlushView(u, recs, k, f);
  }

  lemma OneEnd(rows: seq<Row>, k: Key, f: Aspect, p: nat, q: nat)
    requires !f.Presence? && Ends(rows, k, f, p) && Ends(rows, k, f, q)
    ensures p == q
  {
  }

  lemma FlushLeads(u: Table, rows: seq<Row>, todo: set<nat>, c: Commit, k: Key, f: Aspect, target: Value)
    requires !f.Presence? && Fits(rows, k, f, target) && Orderly(rows, todo) && c.Flushed? && Describes(rows, c)
    requires PositionsOf(rows, c) <= todo
    ensures Leads(u, rows, todo, PositionsOf(rows, c), After(c, u), k, f, target)
  {
    var sub := PositionsOf(rows, c);
    if j: nat :| j in c.at && SpeaksAt(rows, k, f, j) {
      var q := LastSpeaker(rows, k, f, j);
      assert j in sub;
      assert q in todo;
      if q in c.at {
        FlushEnds(u, rows, c.records, c.at, k, f, target, q);
      } else {
        forall p | Ends(rows, k, f, p) ensures p in todo - sub { OneEnd(rows, k, f, p, q); }
      }
    } else {
      FlushSilent(u, rows, c.records, c.at, k, f);
    }
  }

  /** A flush that brings the listing back is followed by the delete of its call. */
  lemma FlushLeadsAway(u: Table, rows: seq<Row>, todo: set<nat>, c: Commit, k: Key, target: Value)
    requires Fits(rows, k, Presence, target) && Orderly(rows, todo) && c.Flushed? && Describes(rows, c)
    requires PositionsOf(rows, c) <= todo
    ensures Leads(u, rows, todo, PositionsOf(rows, c), After(c, u), k, Presence, target)
  {
    var sub := PositionsOf(rows, c);
    if i: nat :| i < |c.records| && c.records[i].key == k {
      var p := c.at[i];
      assert p in sub && rows[p] == Upsert(c.records[i]) && Writes(rows[p]) && RowKey(rows[p]) == k;
      var r :| 0 <= r < |rows| && rows[r].Remove? && rows[r].key == k;
      assert Ends(rows, k, Presence, r);
      forall q | Ends(rows, k, Presence, q) ensures q in todo - sub {
        assert q in todo;
        assert forall j :: j in c.at ==> rows[j].Upsert?;
      }
    } else {
      FlushPasses(u, c.records, k);
    }
  }

  lemma DeleteLeads(u: Table, rows: seq<Row>, todo: set<nat>, c: Commit, k: Key, f: Aspect, target: Value)
    requires Fits(rows, k, f, target) && c.Deleted? && Describes(rows, c)
    ensures Leads(u, rows, todo, PositionsOf(rows, c), After(c, u), k, f, target)
  {
    if k in c.keys {
      assert k in RemovedKeys(rows);
      assert f.Presence?;
    } else {
      assert Get(After(c, u), k) == Get(u, k);
    }
  }

  /** Every transaction of a call on a chunk that fits leads to the target. */
  lemma CommitsLead(u: Table, rows: seq<Row>, todo: set<nat>, sub: set<nat>, v: Table, k: Key, f: Aspect, target: Value)
    requires Fits(rows, k, f, target) && Orderly(rows, todo) && sub <= todo && Commits(u, rows, todo, sub, v)
    ensures Leads(u, rows, todo, sub, v, k, f, target)
  {
    if c :| Describes(rows, c) && KeepsOrder(rows, todo, c) && sub == PositionsOf(rows, c) && v == After(c, u) {
      hide Leads, Fits, Orderly, Describes, KeepsOrder, After, PositionsOf;
      if c.Deleted? {
        DeleteLeads(u, rows, todo, c, k, f, target);
      } else if f.Presence? {
        FlushLeadsAway(u, rows, todo, c, k, target);
      } else {
        FlushLeads(u, rows, todo, c, k, f, target);
      }
    }
  }

  /** A transaction leaves the listings that its rows do not write. */
  lemma CommitsPass(u: Table, rows: seq<Row>, todo: set<nat>, sub: set<nat>, v: Table, k: Key)
    requires Commits(u, rows, todo, sub, v) && Foreign(k, rows)
    ensures Get(v, k) == Get(u, k)
  {
    if c :| Describes(rows, c) && sub == PositionsOf(rows, c) && v == After(c, u) {
      if c.Flushed? {
        forall i | 0 <= i < |c.records| ensures c.records[i].key != k {
          assert rows[c.at[i]] == Upsert(c.records[i]) && Writes(rows[c.at[i]]);
        }
        FlushPasses(u, c.records, k);
      } else {
        RemovedIsWritten(rows, k);
      }
    }
  }

  lemma RemovedIsWritten(rows: seq<Row>, k: Key)
    requires Foreign(k, rows)
    ensures k !in RemovedKeys(rows)
  {
    assert forall i :: 0 <= i < |rows| && rows[i].Remove? ==> Writes(rows[i]) && RowKey(rows[i]) == rows[i].key;
  }

  // ---- Pages that settle -------------------------------------------------------------------------

  /** The page's last row of k is a delete. */
  ghost predicate EndsRemoved(rows: seq<Row>, k: Key) {
    exists i: nat :: LastOfKey(rows, i) && rows[i] == Remove(k)
  }

  /** What a chunk says of listing k is what its page says: an aspect that it speaks of ends with the page's value,
      and its last upsert has no position unless all of its upserts do. */
  ghost predicate ChunkAgrees(rows: seq<Row>, all: seq<Row>, k: Key) {
    forall f: Aspect :: Shown(Records(rows), k, f).Some? ==>
      Shown(Records(rows), k, f) == Shown(Records(all), k, f) && !Cleared(Records(rows), k, f)
  }

  /** Every chunk with rows of k says of it what the page says; if the page deletes k, all of them must. */
  ghost predicate KeySettles(parts: seq<seq<Row>>, k: Key) {
    var all := Flatten(parts);
    if NeverRemoved(all, k) then forall c: nat :: c < |parts| ==> ChunkAgrees(parts[c], all, k)
    else EndsRemoved(all, k) && forall c: nat :: c < |parts| && !Foreign(k, parts[c]) ==> !NeverRemoved(parts[c], k)
  }

  /** The page settles: which of its chunks is written last makes no difference. */
  ghost predicate PageSettles(parts: seq<seq<Row>>) {
    forall k :: KeySettles(parts, k)
  }

  /** The upserts of a listing set the same flag on insert. BuildListingRecord leaves it off on all of them. */
  ghost predicate FlagsAgree(rows: seq<Row>) {
    forall i, j :: 0 <= i < |rows| && 0 <= j < |rows| && SameListingUpserts(rows[i], rows[j]) ==>
      rows[i].record.lowRisk == rows[j].record.lowRisk
  }

  predicate SameListingUpserts(a: Row, b: Row) { a.Upsert? && b.Upsert? && a.record.key == b.record.key }

  // ---- What the page says ------------------------------------------------------------------------

  lemma PageView(x: Option<Listing>, all: seq<Row>, k: Key, f: Aspect)
    requires NeverRemoved(all, k) && !f.Presence? && Flagged(Records(all), k, f)
    ensures View(RowsAt(x, all, k), f) == Or(Shown(Records(all), k, f), View(x, f))
  {
    RowsAtRecords(x, all, k);
    RecordsView(x, Records(all), k, f);
  }

  /** The flag that the page's upserts of k set. */
  lemma FlagOf(all: seq<Row>, k: Key) returns (flag: bool)
    requires FlagsAgree(all)
    ensures Flagged(Records(all), k, Flood(flag))
  {
    var recs := Records(all);
    if i: nat :| i < |recs| && recs[i].key == k {
      flag := recs[i].lowRisk;
      var a := RowOfRecord(all, i);
      RecordOfRow(all, a);
      forall j: nat | j < |recs| && recs[j].key == k ensures recs[j].lowRisk == flag {
        var b := RowOfRecord(all, j);
        RecordOfRow(all, b);
        assert SameListingUpserts(all[a], all[b]);
      }
    } else {
      flag := false;
    }
  }

  lemma StretchRecords(part: seq<Row>, all: seq<Row>, off: nat, k: Key, f: Aspect)
    requires StretchOf(part, all, off)
    ensures Flagged(Records(all), k, f) ==> Flagged(Records(part), k, f)
    ensures NeverRemoved(all, k) ==> NeverRemoved(part, k)
  {
    forall i: nat | i < |Records(part)|
      ensures exists j: nat :: j < |Records(all)| && Records(all)[j] == Records(part)[i]
    {
      var a := RowOfRecord(part, i);
      RecordOfRow(part, a);
      assert part[a] == all[off + a];
      RecordOfRow(all, off + a);
    }
  }

  /** On a page that settles every chunk fits, with the listing of row-at-a-time application as its target. */
  lemma SettledFits(x: Option<Listing>, parts: seq<seq<Row>>, k: Key, f: Aspect, c: nat)
    requires KeySettles(parts, k) && c < |parts|
    requires if NeverRemoved(Flatten(parts), k) then !f.Presence? && Flagged(Records(Flatten(parts)), k, f)
      else f.Presence?
    ensures Fits(parts[c], k, f, View(RowsAt(x, Flatten(parts), k), f))
  {
    var all := Flatten(parts);
    ChunkIsStretch(parts, c);
    StretchRecords(parts[c], all, Offset(parts, c), k, f);
    if NeverRemoved(all, k) {
      PageView(x, all, k, f);
    } else {
      var i: nat :| LastOfKey(all, i) && all[i] == Remove(k);
      RowsAtLast(x, all, i);
    }
  }

  /** What the page says, some chunk says. */
  lemma SomeChunkSpeaks(parts: seq<seq<Row>>, k: Key, f: Aspect) returns (c: nat, q: nat)
    requires !f.Presence? && Shown(Records(Flatten(parts)), k, f).Some?
    ensures c < |parts| && Ends(parts[c], k, f, q)
  {
    var all := Flatten(parts);
    var j := SpokenBy(all, k, f);
    c := SomeChunkHolds(parts, j);
    ChunkIsStretch(parts, c);
    var i: nat := j - Offset(parts, c);
    assert parts[c][i] == all[j];
    q := LastSpeaker(parts[c], k, f, i);
  }

  lemma SomeChunkRemoves(parts: seq<seq<Row>>, k: Key) returns (c: nat, q: nat)
    requires !NeverRemoved(Flatten(parts), k)
    ensures c < |parts| && Ends(parts[c], k, Presence, q)
  {
    var all := Flatten(parts);
    var j: nat :| j < |all| && all[j].Remove? && all[j].key == k;
    c := SomeChunkHolds(parts, j);
    ChunkIsStretch(parts, c);
    q := j - Offset(parts, c);
    assert parts[c][q] == all[j];
  }

  // ---- Pages that do not settle ------------------------------------------------------------------

  /** A call that flushes all upserts of its rows at once. */
  function HydratedAtOnce(t: Table, rows: seq<Row>): Table { Flush(t, Records(rows)) - RemovedKeys(rows) }

  /** Whatever the mirror was, after a call on rows listing k is not what the page makes of it. */
  ghost predicate Spoils(rows: seq<Row>, all: seq<Row>, k: Key) {
    forall u: Table, x: Option<Listing> :: Get(HydratedAtOnce(u, rows), k) != RowsAt(x, all, k)
  }

  lemma DisagreeingChunkSpoils(rows: seq<Row>, all: seq<Row>, off: nat, k: Key)
    requires StretchOf(rows, all, off) && NeverRemoved(all, k) && !ChunkAgrees(rows, all, k)
    ensures Spoils(rows, all, k) && !Foreign(k, all)
  {
    var recs := Records(rows);
    var f: Aspect :| Shown(recs, k, f).Some? &&
      !(Shown(recs, k, f) == Shown(Records(all), k, f) && !Cleared(recs, k, f));
    var j := SpokenBy(rows, k, f);
    assert rows[j] == all[off + j];
    assert SpeaksAt(all, k, f, off + j);
    assert Writes(all[off + j]) && RowKey(all[off + j]) == k;
    SpokenIn(all, k, f, off + j);
    forall u: Table, x: Option<Listing> ensures Get(HydratedAtOnce(u, rows), k) != RowsAt(x, all, k) {
      StretchRecords(rows, all, off, k, f);
      PageView(x, all, k, f);
      FlushView(u, recs, k, f);
      assert Get(HydratedAtOnce(u, rows), k) == Get(Flush(u, recs), k);
      PositionNeedsPoint(recs, k, f);
      PositionNeedsPoint(Records(all), k, f);
    }
  }

  /** What records say has coordinates exactly when it has a latitude and a longitude. */
  lemma PositionNeedsPoint(recs: seq<Record>, k: Key, f: Aspect)
    requires Shown(recs, k, f).Some?
    ensures var v := Shown(recs, k, f).value;
      v.ScalarValue? ==> (Positioned(v) <==> v.latitude.Some? && v.longitude.Some?)
  {
    var i := Speaker(recs, k, f);
  }

  lemma RemovingChunkSpoils(rows: seq<Row>, all: seq<Row>, k: Key, i: nat)
    requires !NeverRemoved(rows, k) && LastOfKey(all, i) && all[i].Upsert? && RowKey(all[i]) == k
    ensures Spoils(rows, all, k)
  {
    forall u: Table, x: Option<Listing> ensures Get(HydratedAtOnce(u, rows), k) != RowsAt(x, all, k) {
      RowsAtLast(x, all, i);
      assert k in RemovedKeys(rows);
    }
  }

  lemma KeepingChunkSpoils(rows: seq<Row>, all: seq<Row>, k: Key)
    requires !Foreign(k, rows) && NeverRemoved(rows, k) && EndsRemoved(all, k)
    ensures Spoils(rows, all, k)
  {
    var i: nat :| LastOfKey(all, i) && all[i] == Remove(k);
    var j: nat :| j < |rows| && Writes(rows[j]) && RowKey(rows[j]) == k;
    assert rows[j].Upsert?;
    RecordOfRow(rows, j);
    var recs, n := Records(rows), |Records(rows[..j])|;
    var m := LastIndex(recs, k, n);
    forall u: Table, x: Option<Listing> ensures Get(HydratedAtOnce(u, rows), k) != RowsAt(x, all, k) {
      RowsAtLast(x, all, i);
      FlushAt(u, recs, k, m, Get(u, k));
      assert k !in RemovedKeys(rows);
    }
  }

  /** On a page that does not settle some chunk, written last, spoils a listing of the page. */
  lemma UnsettledChunk(parts: seq<seq<Row>>, k: Key) returns (c: nat)
    requires !KeySettles(parts, k)
    ensures c < |parts| && Spoils(parts[c], Flatten(parts), k) && !Foreign(k, Flatten(parts))
  {
    var all := Flatten(parts);
    if NeverRemoved(all, k) {
      c :| c < |parts| && !ChunkAgrees(parts[c], all, k);
      ChunkIsStretch(parts, c);
      DisagreeingChunkSpoils(parts[c], all, Offset(parts, c), k);
    } else {
      var r: nat :| r < |all| && all[r].Remove? && all[r].key == k;
      assert Writes(all[r]) && RowKey(all[r]) == k;
      var i := LastRowOf(all, k, r);
      if all[i].Remove? {
        assert all[i] == Remove(k);
        c :| c < |parts| && !Foreign(k, parts[c]) && NeverRemoved(parts[c], k);
        KeepingChunkSpoils(parts[c], all, k);
      } else {
        var q;
        c, q := SomeChunkRemoves(parts, k);
        assert parts[c][q].Remove?;
        RemovingChunkSpoils(parts[c], all, k, i);
      }
    }
  }

  // ---- Pages without repeated keys ---------------------------------------------------------------

  /** A page without repeated keys settles. */
  lemma DistinctKeysSettle(parts: seq<seq<Row>>)
    requires DistinctKeys(Flatten(parts))
    ensures PageSettles(parts) && FlagsAgree(Flatten(parts))
  {
    forall k ensures KeySettles(parts, k) { DistinctKeySettles(parts, k); }
    var all := Flatten(parts);
    forall i, j | 0 <= i < |all| && 0 <= j < |all| && SameListingUpserts(all[i], all[j])
      ensures all[i].record.lowRisk == all[j].record.lowRisk
    {
      assert Writes(all[i]) && Writes(all[j]) && RowKey(all[i]) == RowKey(all[j]);
      assert i == j;
    }
  }

  lemma OnlyRow(all: seq<Row>, k: Key, i: nat, j: nat)
    requires DistinctKeys(all) && i < |all| && j < |all| && Writes(all[i]) && Writes(all[j])
    requires RowKey(all[i]) == k && RowKey(all[j]) == k
    ensures i == j
  {
  }

  /** Row i is the only upsert of k. */
  ghost predicate OnlyUpsert(rows: seq<Row>, k: Key, i: nat) {
    forall j: nat :: UpsertOf(rows, k, j) ==> j == i
  }

  lemma OnlyUpsertShown(rows: seq<Row>, k: Key, f: Aspect, i: nat)
    requires !f.Presence? && SpeaksAt(rows, k, f, i) && OnlyUpsert(rows, k, i)
    ensures Shown(Records(rows), k, f) == Said(rows[i].record, f)
  {
    assert forall j: nat :: SpeaksAt(rows, k, f, j) ==> UpsertOf(rows, k, j);
    EndsShown(rows, k, f, i);
  }

  lemma DistinctOnly(rows: seq<Row>, all: seq<Row>, off: nat, k: Key, i: nat)
    requires DistinctKeys(all) && StretchOf(rows, all, off) && UpsertOf(rows, k, i)
    ensures UpsertOf(all, k, off + i) && OnlyUpsert(all, k, off + i) && OnlyUpsert(rows, k, i)
  {
    assert all[off + i] == rows[i];
    forall j: nat | UpsertOf(all, k, j) ensures j == off + i { OnlyRow(all, k, j, off + i); }
    forall j: nat | UpsertOf(rows, k, j) ensures j == i {
      assert all[off + j] == rows[j];
      OnlyRow(all, k, off + j, off + i);
    }
  }

  lemma DistinctAspectAgrees(rows: seq<Row>, all: seq<Row>, off: nat, k: Key, f: Aspect)
    requires DistinctKeys(all) && StretchOf(rows, all, off) && Shown(Records(rows), k, f).Some?
    ensures Shown(Records(rows), k, f) == Shown(Records(all), k, f) && !Cleared(Records(rows), k, f)
  {
    hide DistinctKeys, Cleared, Shown, Records;
    var j := SpokenBy(rows, k, f);
    DistinctOnly(rows, all, off, k, j);
    assert all[off + j] == rows[j];
    OnlyUpsertShown(rows, k, f, j);
    OnlyUpsertShown(all, k, f, off + j);
    AllOnePlace(rows, k, f, j);
  }

  lemma DistinctChunkAgrees(parts: seq<seq<Row>>, k: Key, c: nat)
    requires DistinctKeys(Flatten(parts)) && c < |parts|
    ensures ChunkAgrees(parts[c], Flatten(parts), k)
  {
    hide DistinctKeys, Cleared, Shown, Records, Flatten;
    ChunkIsStretch(parts, c);
    forall f: Aspect | Shown(Records(parts[c]), k, f).Some?
      ensures Shown(Records(parts[c]), k, f) == Shown(Records(Flatten(parts)), k, f)
      ensures !Cleared(Records(parts[c]), k, f)
    {
      DistinctAspectAgrees(parts[c], Flatten(parts), Offset(parts, c), k, f);
    }
  }

  lemma AllOnePlace(rows: seq<Row>, k: Key, f: Aspect, j: nat)
    requires SpeaksAt(rows, k, f, j) && OnlyUpsert(rows, k, j)
    requires Shown(Records(rows), k, f) == Said(rows[j].record, f)
    ensures !Cleared(Records(rows), k, f)
  {
    forall m: nat | m < |Records(rows)| && Records(rows)[m].key == k ensures Records(rows)[m] == rows[j].record {
      var i := RowOfRecord(rows, m);
      RecordOfRow(rows, i);
      assert UpsertOf(rows, k, i);
    }
  }

  lemma DistinctKeySettles(parts: seq<seq<Row>>, k: Key)
    requires DistinctKeys(Flatten(parts))
    ensures KeySettles(parts, k)
  {
    var all := Flatten(parts);
    if NeverRemoved(all, k) {
      forall c: nat | c < |parts| ensures ChunkAgrees(parts[c], all, k) { DistinctChunkAgrees(parts, k, c); }
    } else {
      var r: nat :| r < |all| && all[r].Remove? && all[r].key == k;
      assert RowKey(all[r]) == k;
      assert LastOfKey(all, r) && all[r] == Remove(k);
      forall c: nat | c < |parts| && !Foreign(k, parts[c]) ensures !NeverRemoved(parts[c], k) {
        ChunkIsStretch(parts, c);
        var j: nat :| j < |parts[c]| && Writes(parts[c][j]) && RowKey(parts[c][j]) == k;
        assert parts[c][j] == all[Offset(parts, c) + j];
        OnlyRow(all, k, r, Offset(parts, c) + j);
      }
    }
  }
}
