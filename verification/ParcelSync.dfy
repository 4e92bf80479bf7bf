/** Paged parcel sync with generation mark-and-sweep (internal/service/gis/sync_parcels.go,
    internal/repository/gis/parcels.go).

    A page is upserted in statements of bounded size, each row stamped with the sync's generation; the
    last page sweeps the rows of older generations. */
module ParcelSync {
  import opened Wrappers

  datatype Key = Key(parcel: string, source: string)

  datatype Parcel = Parcel(county: string, generation: int, data: string)

  datatype Row = Row(key: Key, parcel: Parcel)

  type Table = map<Key, Parcel>

  /** An upstream feature: the pilot county its CO_NO names, and its id and data if they can be read. */
  datatype Feature = Feature(pilotCounty: Option<string>, content: Option<(string, string)>)

  datatype Page = Page(features: seq<Feature>, exceeded: bool)

  datatype PageArgs = PageArgs(source: string, county: string, offset: nat, generation: int)

  datatype Config = Config(pageSize: int, chunk: int, statewide: bool)

  function PageSize(cfg: Config): (n: nat)
    ensures n > 0
  {
    if cfg.pageSize <= 0 then 2000 else cfg.pageSize
  }

  function Chunk(cfg: Config): (n: nat)
    ensures n > 0
  {
    if cfg.chunk <= 0 then 500 else cfg.chunk
  }

  function Find(t: Table, k: Key): Option<Parcel> { if k in t then Some(t[k]) else None }

  // ---- Statements --------------------------------------------------------------------------------

  ghost predicate DistinctKeys(rows: seq<Row>) {
    forall i, j :: 0 <= i < j < |rows| ==> rows[i].key != rows[j].key
  }

  function Upserted(t: Table, rows: seq<Row>): Table {
    if rows == [] then t else Upserted(t, rows[..|rows| - 1])[rows[|rows| - 1].key := rows[|rows| - 1].parcel]
  }

  /** DELETE ... WHERE source_key = $1 AND source_generation < $2 AND ($3 = '' OR county = $3). */
  predicate Stale(k: Key, p: Parcel, source: string, county: string, generation: int) {
    k.source == source && p.generation < generation && (county == "" || p.county == county)
  }

  function Swept(t: Table, source: string, county: string, generation: int): Table {
    map k | k in t && !Stale(k, t[k], source, county, generation) :: t[k]
  }

  ghost predicate IsLast(rows: seq<Row>, k: Key, i: int) {
    0 <= i < |rows| && rows[i].key == k && forall j :: i < j < |rows| ==> rows[j].key != k
  }

  /** What a table row becomes when rows are written in order: the last one with its key wins. */
  function LastWrite(rows: seq<Row>, k: Key): Option<Parcel> {
    if rows == [] then None
    else if rows[|rows| - 1].key == k then Some(rows[|rows| - 1].parcel)
    else LastWrite(rows[..|rows| - 1], k)
  }

  lemma {:induction false} LastWriteIsLast(rows: seq<Row>, k: Key)
    ensures LastWrite(rows, k).None? ==> forall i :: 0 <= i < |rows| ==> rows[i].key != k
    ensures LastWrite(rows, k).Some? ==> exists i :: IsLast(rows, k, i) && LastWrite(rows, k) == Some(rows[i].parcel)
  {
    if rows != [] {
      var n := |rows| - 1;
      if rows[n].key == k {
        assert IsLast(rows, k, n);
      } else {
        LastWriteIsLast(rows[..n], k);
        if i :| IsLast(rows[..n], k, i) && LastWrite(rows[..n], k) == Some(rows[..n][i].parcel) {
          assert IsLast(rows, k, i);
        }
      }
    }
  }

  lemma {:induction false} UpsertedFind(t: Table, rows: seq<Row>, k: Key)
    ensures Find(Upserted(t, rows), k) == if LastWrite(rows, k).Some? then LastWrite(rows, k) else Find(t, k)
  {
    if rows != [] { UpsertedFind(t, rows[..|rows| - 1], k); }
  }

  lemma {:induction false} UpsertedConcat(t: Table, a: seq<Row>, b: seq<Row>)
    ensures Upserted(t, a + b) == Upserted(Upserted(t, a), b)
  {
    if b == [] {
      assert a + b == a;
    } else {
      UpsertedConcat(t, a, b[..|b| - 1]);
      assert (a + b)[..|a + b| - 1] == a + b[..|b| - 1];
    }
  }

  // ---- One page ----------------------------------------------------------------------------------

  /** The row that a feature gives, if it gives one. */
  function ExtractRow(cfg: Config, args: PageArgs, f: Feature): Option<Row> {
    if (cfg.statewide && f.pilotCounty.None?) || f.content.None? then None
    else
      var county := if cfg.statewide then f.pilotCounty.value else args.county;
      Some(Row(Key(f.content.value.0, args.source), Parcel(county, args.generation, f.content.value.1)))
  }

  function ExtractRows(cfg: Config, args: PageArgs, features: seq<Feature>): seq<Row> {
    if features == [] then [] else
      var r := ExtractRow(cfg, args, features[0]);
      (if r.Some? then [r.value] else []) + ExtractRows(cfg, args, features[1..])
  }

  datatype Effect = Effect(table: Table, ok: bool)

  /** One INSERT ... ON CONFLICT DO UPDATE, which fails when it would touch a row twice. */
  function Statement(t: Table, rows: seq<Row>): Effect {
    if forall i, j :: 0 <= i < j < |rows| ==> rows[i].key != rows[j].key
    then Effect(Upserted(t, rows), true)
    else Effect(t, false)
  }

  /** The statements of a page: rows are collected and written out whenever chunk of them are pending. */
  function Flushed(t: Table, pending: seq<Row>, rows: seq<Row>, chunk: nat): Effect
    decreases |rows|
  {
    if rows == [] then if pending == [] then Effect(t, true) else Statement(t, pending)
    else
      var grown := pending + [rows[0]];
      if |grown| >= chunk then
        var e := Statement(t, grown);
        if e.ok then Flushed(e.table, [], rows[1..], chunk) else e
      else Flushed(t, grown, rows[1..], chunk)
  }

  predicate MorePages(cfg: Config, page: Page) { page.exceeded || |page.features| >= PageSize(cfg) }

  datatype Outcome = Failed(table: Table) | Chained(table: Table, next: PageArgs) | Finalized(table: Table)

  function PageOutcome(t: Table, cfg: Config, args: PageArgs, page: Page): Outcome {
    if page.features == [] && args.offset == 0 then Failed(t)
    else
      var e := Flushed(t, [], ExtractRows(cfg, args, page.features), Chunk(cfg));
      if !e.ok then Failed(e.table)
      else if MorePages(cfg, page) then Chained(e.table, args.(offset := args.offset + PageSize(cfg)))
      else Finalized(Swept(e.table, args.source, if cfg.statewide then "" else args.county, args.generation))
  }

  lemma ExtractStep(cfg: Config, args: PageArgs, features: seq<Feature>, i: nat)
    requires i < |features|
    ensures var r := ExtractRow(cfg, args, features[i]);
      ExtractRows(cfg, args, features[i..]) ==
        (if r.Some? then [r.value] else []) + ExtractRows(cfg, args, features[i + 1..])
  {
    assert features[i..][1..] == features[i + 1..];
  }

  lemma FlushedStep(t: Table, pending: seq<Row>, r: Row, rows: seq<Row>, chunk: nat)
    ensures var grown := pending + [r];
      Flushed(t, pending, [r] + rows, chunk) ==
        if |grown| < chunk then Flushed(t, grown, rows, chunk)
        else if Statement(t, grown).ok then Flushed(Statement(t, grown).table, [], rows, chunk) else Statement(t, grown)
  {
    assert ([r] + rows)[1..] == rows;
  }

  class ParcelStore {
    var parcels: Table
    var jobs: seq<PageArgs>

    /** BulkUpsertParcels on at most one chunk is one statement. */
    method UpsertParcelBatch(rows: seq<Row>) returns (ok: bool)
      modifies this`parcels
      ensures Effect(parcels, ok) == Statement(old(parcels), rows)
    {
      ok := true;
      for i := 0 to |rows|
        invariant ok <==> forall a, b :: 0 <= a < b < |rows| && a < i ==> rows[a].key != rows[b].key
      {
        for j := i + 1 to |rows|
          invariant ok <==> forall a, b :: 0 <= a < b < |rows| && (a < i || (a == i && b < j)) ==>
            rows[a].key != rows[b].key
        {
          if rows[i].key == rows[j].key {
            ok := false;
          }
        }
      }
      if ok {
        WriteRows(rows);
      }
    }

    method WriteRows(rows: seq<Row>)
      modifies this`parcels
      ensures parcels == Upserted(old(parcels), rows)
    {
      for i := 0 to |rows|
        invariant parcels == Upserted(old(parcels), rows[..i])
      {
        assert rows[..i + 1][..i] == rows[..i];
        parcels := parcels[rows[i].key := rows[i].parcel];
      }
      assert rows[..|rows|] == rows;
    }

    method DeleteStaleParcels(source: string, county: string, generation: int) returns (deleted: nat)
      modifies this`parcels
      ensures parcels == Swept(old(parcels), source, county, generation)
      ensures deleted == |old(parcels)| - |parcels|
    {
      var kept := Swept(parcels, source, county, generation);
      assert kept.Keys <= parcels.Keys;
      KeysCount(kept.Keys, parcels.Keys);
      deleted := |parcels| - |kept|;
      parcels := kept;
    }

    /** SyncPage with a queue; the fetched page is a parameter. */
    method SyncPage(cfg: Config, args: PageArgs, page: Page) returns (ok: bool)
      modifies this
      ensures var o := PageOutcome(old(parcels), cfg, args, page);
        && parcels == o.table && ok == !o.Failed?
        && jobs == if o.Chained? then old(jobs) + [o.next] else old(jobs)
    {
      if |page.features| == 0 && args.offset == 0 {
        return false;
      }
      var chunk := Chunk(cfg);
      var batch: seq<Row> := [];
      ghost var all := ExtractRows(cfg, args, page.features);
      assert page.features[0..] == page.features && ExtractRows(cfg, args, page.features[|page.features|..]) == [];
      assert forall t, pending ::
        Flushed(t, pending, [], chunk) == if pending == [] then Effect(t, true) else Statement(t, pending);
      hide ExtractRows, ExtractRow, Flushed, Statement, Swept;
      for i := 0 to |page.features|
        invariant |batch| < chunk && jobs == old(jobs)
        invariant Flushed(old(parcels), [], all, chunk) ==
          Flushed(parcels, batch, ExtractRows(cfg, args, page.features[i..]), chunk)
      {
        var row := ExtractRow(cfg, args, page.features[i]);
        ExtractStep(cfg, args, page.features, i);
        if row.Some? {
          FlushedStep(parcels, batch, row.value, ExtractRows(cfg, args, page.features[i + 1..]), chunk);
          batch := batch + [row.value];
          if |batch| >= chunk {
            var done := UpsertParcelBatch(batch);
            if !done {
              return false;
            }
            batch := [];
          }
        } else {
          assert [] + ExtractRows(cfg, args, page.features[i + 1..]) == ExtractRows(cfg, args, page.features[i + 1..]);
        }
      }
      if |batch| > 0 {
        var done := UpsertParcelBatch(batch);
        if !done {
          return false;
        }
      }
      if MorePages(cfg, page) {
        jobs := jobs + [args.(offset := args.offset + PageSize(cfg))];
        return true;
      }
      var _ := DeleteStaleParcels(args.source, if cfg.statewide then "" else args.county, args.generation);
      ok := true;
    }
  }

  lemma {:induction false} KeysCount(a: set<Key>, b: set<Key>)
    requires a <= b
    ensures |a| <= |b|
  {
    if k :| k in a { KeysCount(a - {k}, b - {k}); }
  }

  /** Whatever the chunk size, the statements of a page that succeed write its rows in order. */
  lemma {:induction false} FlushedIsUpserted(t: Table, pending: seq<Row>, rows: seq<Row>, chunk: nat)
    requires Flushed(t, pending, rows, chunk).ok
    ensures Flushed(t, pending, rows, chunk).table == Upserted(t, pending + rows)
    decreases |rows|
  {
    if rows == [] {
      assert pending + rows == pending;
    } else {
      var grown := pending + [rows[0]];
      assert pending + rows == grown + rows[1..];
      if |grown| >= chunk {
        FlushedIsUpserted(Upserted(t, grown), [], rows[1..], chunk);
        assert [] + rows[1..] == rows[1..];
        UpsertedConcat(t, grown, rows[1..]);
      } else {
        FlushedIsUpserted(t, grown, rows[1..], chunk);
      }
    }
  }

  /** The statement that row i of a page is in: every chunk rows fill one. */
  function StatementOf(i: nat, chunk: nat): nat
    requires chunk > 0
  {
    if i < chunk then 0 else 1 + StatementOf(i - chunk, chunk)
  }

  /** No key repeats among the rows of one statement. */
  ghost predicate Accepted(rows: seq<Row>, chunk: nat)
    requires chunk > 0
  {
    forall i, j :: 0 <= i < j < |rows| && StatementOf(i, chunk) == StatementOf(j, chunk) ==> rows[i].key != rows[j].key
  }

  /** A page is accepted exactly when no key repeats within one statement. */
  lemma {:induction false} AcceptedIff(t: Table, pending: seq<Row>, rows: seq<Row>, chunk: nat)
    requires |pending| < chunk
    ensures Flushed(t, pending, rows, chunk).ok <==> Accepted(pending + rows, chunk)
    decreases |rows|
  {
    var all := pending + rows;
    if rows == [] {
      assert all == pending;
      FirstStatement(all, chunk);
    } else {
      var grown := pending + [rows[0]];
      assert all == grown + rows[1..];
      if |grown| == chunk {
        if Accepted(all, chunk) { RestAccepted(grown, rows[1..], chunk); }
        if DistinctKeys(grown) {
          assert [] + rows[1..] == rows[1..];
          AcceptedIff(Upserted(t, grown), [], rows[1..], chunk);
          if Accepted(rows[1..], chunk) { JoinedAccepted(grown, rows[1..], chunk); }
        }
      } else {
        AcceptedIff(t, grown, rows[1..], chunk);
      }
    }
  }

  lemma FirstStatement(rows: seq<Row>, chunk: nat)
    requires |rows| <= chunk && chunk > 0
    ensures Accepted(rows, chunk) <==> DistinctKeys(rows)
  {
    if Accepted(rows, chunk) {
      forall i, j | 0 <= i < j < |rows| ensures rows[i].key != rows[j].key {
        assert StatementOf(i, chunk) == 0 && StatementOf(j, chunk) == 0;
      }
    }
  }

  lemma RestAccepted(first: seq<Row>, rest: seq<Row>, chunk: nat)
    requires |first| == chunk > 0 && Accepted(first + rest, chunk)
    ensures DistinctKeys(first) && Accepted(rest, chunk)
  {
    var all := first + rest;
    forall i, j | 0 <= i < j < chunk ensures first[i].key != first[j].key {
      assert StatementOf(i, chunk) == 0 && StatementOf(j, chunk) == 0;
      assert all[i] == first[i] && all[j] == first[j];
    }
    forall i, j | 0 <= i < j < |rest| && StatementOf(i, chunk) == StatementOf(j, chunk)
      ensures rest[i].key != rest[j].key
    {
      assert StatementOf(i + chunk, chunk) == StatementOf(j + chunk, chunk);
      assert all[i + chunk] == rest[i] && all[j + chunk] == rest[j];
    }
  }

  lemma JoinedAccepted(first: seq<Row>, rest: seq<Row>, chunk: nat)
    requires |first| == chunk > 0 && DistinctKeys(first) && Accepted(rest, chunk)
    ensures Accepted(first + rest, chunk)
  {
    var all := first + rest;
    forall i, j | 0 <= i < j < |all| && StatementOf(i, chunk) == StatementOf(j, chunk)
      ensures all[i].key != all[j].key
    {
      if i >= chunk {
        assert rest[i - chunk] == all[i] && rest[j - chunk] == all[j];
      } else {
        assert StatementOf(i, chunk) == 0;
      }
    }
  }

  // ---- A whole sync over a stable upstream -------------------------------------------------------

  /** The page that a stable list of features serves at an offset. */
  function Served(cfg: Config, all: seq<Feature>, offset: nat): Page {
    var end := offset + PageSize(cfg);
    if offset >= |all| then Page([], false)
    else if end >= |all| then Page(all[offset..], false)
    else Page(all[offset..end], true)
  }

  /** The chain of pages from an offset on, each run when the one before has succeeded. */
  function Chain(t: Table, cfg: Config, args: PageArgs, all: seq<Feature>): Outcome
    decreases |all| + PageSize(cfg) - args.offset
  {
    var o := PageOutcome(t, cfg, args, Served(cfg, all, args.offset));
    if o.Chained? && args.offset <= |all| then Chain(o.table, cfg, o.next, all) else o
  }

  function Scope(cfg: Config, args: PageArgs): string { if cfg.statewide then "" else args.county }

  /** The table after a completed sync. */
  ghost predicate IsGenerationSwap(before: Table, after: Table, rows: seq<Row>, source: string, county: string,
                                   generation: int) {
    forall k :: Find(after, k) == SwappedRow(before, rows, source, county, generation, k)
  }

  /** The last write, or what the sweep leaves of the old row. */
  function SwappedRow(before: Table, rows: seq<Row>, source: string, county: string, generation: int,
                      k: Key): Option<Parcel> {
    if LastWrite(rows, k).Some? then LastWrite(rows, k)
    else if k in before && !Stale(k, before[k], source, county, generation) then Some(before[k]) else None
  }

  lemma {:induction false} ExtractRowsAt(cfg: Config, args: PageArgs, features: seq<Feature>, r: Row)
    requires r in ExtractRows(cfg, args, features)
    ensures exists f :: f in features && ExtractRow(cfg, args, f) == Some(r)
    ensures r.key.source == args.source && r.parcel.generation == args.generation
  {
    var h := ExtractRow(cfg, args, features[0]);
    if h != Some(r) {
      ExtractRowsAt(cfg, args, features[1..], r);
    }
  }

  lemma {:induction false} ExtractRowsConcat(cfg: Config, args: PageArgs, a: seq<Feature>, b: seq<Feature>)
    ensures ExtractRows(cfg, args, a + b) == ExtractRows(cfg, args, a) + ExtractRows(cfg, args, b)
  {
    if a == [] {
      assert a + b == b;
    } else {
      ExtractRowsConcat(cfg, args, a[1..], b);
      assert (a + b)[1..] == a[1..] + b && (a + b)[0] == a[0];
    }
  }

  /** The rows do not depend on the page offset. */
  lemma {:induction false} OffsetIsIrrelevant(cfg: Config, args: PageArgs, other: PageArgs, features: seq<Feature>)
    requires other == args.(offset := other.offset)
    ensures ExtractRows(cfg, other, features) == ExtractRows(cfg, args, features)
  {
    if features != [] { OffsetIsIrrelevant(cfg, args, other, features[1..]); }
  }

  lemma SweepAfterWrites(t: Table, rows: seq<Row>, source: string, county: string, generation: int)
    requires forall r :: r in rows ==> r.parcel.generation == generation
    ensures IsGenerationSwap(t, Swept(Upserted(t, rows), source, county, generation), rows, source, county, generation)
  {
    var u := Upserted(t, rows);
    forall k
      ensures Find(Swept(u, source, county, generation), k) == SwappedRow(t, rows, source, county, generation, k)
    {
      UpsertedFind(t, rows, k);
      LastWriteIsLast(rows, k);
      if LastWrite(rows, k).Some? {
        var i :| IsLast(rows, k, i) && LastWrite(rows, k) == Some(rows[i].parcel);
        assert rows[i] in rows;
      }
    }
  }

  lemma PageWrites(t: Table, cfg: Config, args: PageArgs, page: Page)
    requires !PageOutcome(t, cfg, args, page).Failed?
    ensures var o, u := PageOutcome(t, cfg, args, page), Upserted(t, ExtractRows(cfg, args, page.features));
      && (o.Chained? ==> o.table == u && o.next == args.(offset := args.offset + PageSize(cfg)) && MorePages(cfg, page))
      && (o.Finalized? ==> o.table == Swept(u, args.source, Scope(cfg, args), args.generation) && !MorePages(cfg, page))
  {
    hide ExtractRows, Flushed, Upserted, Swept;
    var rows := ExtractRows(cfg, args, page.features);
    FlushedIsUpserted(t, [], rows, Chunk(cfg));
    assert [] + rows == rows;
  }

  lemma ServedStretch(cfg: Config, all: seq<Feature>, offset: nat)
    requires offset <= |all|
    ensures var page, end := Served(cfg, all, offset), offset + PageSize(cfg);
      if MorePages(cfg, page) then end <= |all| && page.features == all[offset..end] else page.features == all[offset..]
  {
  }

  lemma {:induction false} ChainWrites(t: Table, cfg: Config, args: PageArgs, all: seq<Feature>)
    requires args.offset <= |all| && Chain(t, cfg, args, all).Finalized?
    ensures Chain(t, cfg, args, all).table ==
      Swept(Upserted(t, ExtractRows(cfg, args, all[args.offset..])), args.source, Scope(cfg, args), args.generation)
    decreases |all| + PageSize(cfg) - args.offset
  {
    hide ExtractRows, Upserted, Swept, Served;
    var page, end := Served(cfg, all, args.offset), args.offset + PageSize(cfg);
    PageWrites(t, cfg, args, page);
    ServedStretch(cfg, all, args.offset);
    var o := PageOutcome(t, cfg, args, page);
    if o.Chained? {
      assert Chain(t, cfg, args, all) == Chain(o.table, cfg, o.next, all);
      ChainWrites(o.table, cfg, o.next, all);
      StretchesJoin(t, cfg, args, o.next, all, end);
    }
  }

  lemma StretchesJoin(t: Table, cfg: Config, args: PageArgs, next: PageArgs, all: seq<Feature>, end: nat)
    requires args.offset <= end <= |all| && next == args.(offset := next.offset)
    ensures Upserted(Upserted(t, ExtractRows(cfg, args, all[args.offset..end])), ExtractRows(cfg, next, all[end..])) ==
            Upserted(t, ExtractRows(cfg, args, all[args.offset..]))
  {
    var a, b := all[args.offset..end], all[end..];
    assert all[args.offset..] == a + b;
    ExtractRowsConcat(cfg, args, a, b);
    OffsetIsIrrelevant(cfg, args, next, b);
    UpsertedConcat(t, ExtractRows(cfg, args, a), ExtractRows(cfg, args, b));
  }

  /** Generation swap: a completed sync of a stable upstream leaves each row as the last feature with its
      key says, keeps the rows that are newer or outside the scope, and removes the other rows of the scope. */
  lemma GenerationSwap(t: Table, cfg: Config, args: PageArgs, all: seq<Feature>)
    requires args.offset == 0 && Chain(t, cfg, args, all).Finalized?
    ensures IsGenerationSwap(t, Chain(t, cfg, args, all).table, ExtractRows(cfg, args, all), args.source,
      Scope(cfg, args), args.generation)
  {
    ChainWrites(t, cfg, args, all);
    assert all[0..] == all;
    var rows := ExtractRows(cfg, args, all);
    forall r | r in rows ensures r.parcel.generation == args.generation { ExtractRowsAt(cfg, args, all, r); }
    SweepAfterWrites(t, rows, args.source, Scope(cfg, args), args.generation);
  }

  ghost predicate PageAccepted(cfg: Config, args: PageArgs, all: seq<Feature>, offset: nat) {
    Accepted(ExtractRows(cfg, args, Served(cfg, all, offset).features), Chunk(cfg))
  }

  /** The offset of the n-th page from an offset on. */
  function PageStart(cfg: Config, offset: nat, n: nat): nat {
    if n == 0 then offset else PageStart(cfg, offset, n - 1) + PageSize(cfg)
  }

  /** From an offset on, every page is accepted. */
  ghost predicate PagesAccepted(cfg: Config, args: PageArgs, all: seq<Feature>, offset: nat) {
    forall n: nat :: PageStart(cfg, offset, n) <= |all| ==> PageAccepted(cfg, args, all, PageStart(cfg, offset, n))
  }

  lemma {:induction false} NextPageStart(cfg: Config, offset: nat, n: nat)
    ensures PageStart(cfg, offset + PageSize(cfg), n) == PageStart(cfg, offset, n + 1) >= offset + PageSize(cfg)
  {
    if n > 0 { NextPageStart(cfg, offset, n - 1); }
  }

  lemma PagesSplit(cfg: Config, args: PageArgs, all: seq<Feature>, offset: nat)
    requires offset <= |all|
    ensures PagesAccepted(cfg, args, all, offset) <==>
      PageAccepted(cfg, args, all, offset) && PagesAccepted(cfg, args, all, offset + PageSize(cfg))
  {
    var next := offset + PageSize(cfg);
    if PagesAccepted(cfg, args, all, offset) {
      assert PageStart(cfg, offset, 0) == offset;
      forall n: nat | PageStart(cfg, next, n) <= |all| ensures PageAccepted(cfg, args, all, PageStart(cfg, next, n)) {
        NextPageStart(cfg, offset, n);
      }
    }
    if PageAccepted(cfg, args, all, offset) && PagesAccepted(cfg, args, all, next) {
      forall n: nat | PageStart(cfg, offset, n) <= |all|
        ensures PageAccepted(cfg, args, all, PageStart(cfg, offset, n))
      {
        if n > 0 { NextPageStart(cfg, offset, n - 1); }
      }
    }
  }

  lemma NoPagesLeft(cfg: Config, args: PageArgs, all: seq<Feature>, offset: nat)
    requires offset > |all|
    ensures PagesAccepted(cfg, args, all, offset)
  {
    forall n: nat ensures PageStart(cfg, offset, n) > |all| { StartsLater(cfg, offset, n); }
  }

  lemma {:induction false} StartsLater(cfg: Config, offset: nat, n: nat)
    ensures PageStart(cfg, offset, n) >= offset
  {
    if n > 0 { StartsLater(cfg, offset, n - 1); }
  }

  lemma PageSucceeds(t: Table, cfg: Config, args: PageArgs, all: seq<Feature>)
    requires args.offset <= |all|
    ensures var o := PageOutcome(t, cfg, args, Served(cfg, all, args.offset));
      && (o.Failed? <==> all == [] || !PageAccepted(cfg, args, all, args.offset))
      && (o.Finalized? ==> args.offset + PageSize(cfg) > |all|)
      && (o.Chained? ==> args.offset + PageSize(cfg) <= |all| && o.next == args.(offset := args.offset + PageSize(cfg)))
  {
    hide ExtractRows, Flushed, Accepted, Swept;
    var rows := ExtractRows(cfg, args, Served(cfg, all, args.offset).features);
    AcceptedIff(t, [], rows, Chunk(cfg));
    assert [] + rows == rows;
    ServedStretch(cfg, all, args.offset);
  }

  lemma {:induction false} OffsetKeepsAcceptance(cfg: Config, args: PageArgs, other: PageArgs, all: seq<Feature>,
                                                 offset: nat)
    requires other == args.(offset := other.offset)
    ensures PagesAccepted(cfg, other, all, offset) <==> PagesAccepted(cfg, args, all, offset)
  {
    forall o: nat ensures PageAccepted(cfg, other, all, o) <==> PageAccepted(cfg, args, all, o) {
      OffsetIsIrrelevant(cfg, args, other, Served(cfg, all, o).features);
    }
  }

  lemma {:induction false} ChainSucceeds(t: Table, cfg: Config, args: PageArgs, all: seq<Feature>)
    requires args.offset <= |all|
    ensures Chain(t, cfg, args, all).Finalized? <==> all != [] && PagesAccepted(cfg, args, all, args.offset)
    decreases |all| + PageSize(cfg) - args.offset
  {
    hide PageOutcome, Served, PagesAccepted, PageAccepted;
    var o := PageOutcome(t, cfg, args, Served(cfg, all, args.offset));
    PageSucceeds(t, cfg, args, all);
    PagesSplit(cfg, args, all, args.offset);
    if o.Chained? {
      ChainSucceeds(o.table, cfg, o.next, all);
      OffsetKeepsAcceptance(cfg, args, o.next, all, o.next.offset);
    } else if o.Finalized? {
      NoPagesLeft(cfg, args, all, args.offset + PageSize(cfg));
    }
  }

  /** A sync completes exactly when the upstream is not empty and no parcel id repeats within one statement of
      one page. */
  lemma SyncCompletesIff(t: Table, cfg: Config, args: PageArgs, all: seq<Feature>)
    requires args.offset == 0
    ensures Chain(t, cfg, args, all).Finalized? <==> all != [] && PagesAccepted(cfg, args, all, 0)
  {
    ChainSucceeds(t, cfg, args, all);
  }

  /** A sync never changes the rows of another source, whether it completes or fails. */
  lemma {:induction false} OtherSourcesUntouched(t: Table, cfg: Config, args: PageArgs, page: Page, k: Key)
    requires k.source != args.source
    ensures Find(PageOutcome(t, cfg, args, page).table, k) == Find(t, k)
  {
    var rows := ExtractRows(cfg, args, page.features);
    forall r | r in rows ensures r.key != k { ExtractRowsAt(cfg, args, page.features, r); }
    FlushedElsewhere(t, [], rows, Chunk(cfg), k);
  }

  lemma {:induction false} FlushedElsewhere(t: Table, pending: seq<Row>, rows: seq<Row>, chunk: nat, k: Key)
    requires (forall r :: r in pending ==> r.key != k) && (forall r :: r in rows ==> r.key != k)
    ensures Find(Flushed(t, pending, rows, chunk).table, k) == Find(t, k)
    decreases |rows|
  {
    if rows == [] {
      UpsertedFind(t, pending, k);
      LastWriteIsLast(pending, k);
    } else {
      var grown := pending + [rows[0]];
      UpsertedFind(t, grown, k);
      LastWriteIsLast(grown, k);
      if |grown| >= chunk {
        FlushedElsewhere(Statement(t, grown).table, [], rows[1..], chunk, k);
      } else {
        FlushedElsewhere(t, grown, rows[1..], chunk, k);
      }
    }
  }

  /** A page that is not the last, or that fails, removes no row. */
  lemma {:induction false} NothingRemovedEarly(t: Table, cfg: Config, args: PageArgs, page: Page)
    requires !PageOutcome(t, cfg, args, page).Finalized?
    ensures t.Keys <= PageOutcome(t, cfg, args, page).table.Keys
  {
    FlushedGrows(t, [], ExtractRows(cfg, args, page.features), Chunk(cfg));
  }

  lemma {:induction false} FlushedGrows(t: Table, pending: seq<Row>, rows: seq<Row>, chunk: nat)
    ensures t.Keys <= Flushed(t, pending, rows, chunk).table.Keys
    decreases |rows|
  {
    var grown := if rows == [] then pending else pending + [rows[0]];
    forall k | k in t ensures k in Upserted(t, grown) { UpsertedFind(t, grown, k); }
    if rows != [] {
      if |grown| >= chunk {
        FlushedGrows(Statement(t, grown).table, [], rows[1..], chunk);
      } else {
        FlushedGrows(t, grown, rows[1..], chunk);
      }
    }
  }
}
