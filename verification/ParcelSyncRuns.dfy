/** A parcel sync under the job queue: page jobs may be retried, run twice or be cut off between two
    statements, and other writers work on the table at the same time (internal/service/gis/sync_parcels.go). */
module ParcelSyncRuns {
  import opened Wrappers
  import opened ParcelSync

  function Flat<T>(parts: seq<seq<T>>): seq<T> {
    if parts == [] then [] else parts[0] + Flat(parts[1..])
  }

  lemma FlatOfFirst<T>(first: seq<T>, rest: seq<seq<T>>)
    ensures Flat([first] + rest) == first + Flat(rest)
  {
    assert ([first] + rest)[1..] == rest;
  }

  lemma {:induction false} InFlat<T>(parts: seq<seq<T>>, x: T)
    ensures x in Flat(parts) <==> exists i :: 0 <= i < |parts| && x in parts[i]
  {
    if parts != [] {
      InFlat(parts[1..], x);
      if x in Flat(parts[1..]) {
        var i :| 0 <= i < |parts[1..]| && x in parts[1..][i];
        assert x in parts[i + 1];
      }
      if i :| 0 <= i < |parts| && x in parts[i] {
        if i > 0 { assert x in parts[1..][i - 1]; }
      }
    }
  }

  // ---- The statements of a page ------------------------------------------------------------------

  /** The rows of a page, cut into its statements. */
  function Cut(rows: seq<Row>, chunk: nat): seq<seq<Row>>
    requires chunk > 0
  {
    if rows == [] then [] else if |rows| <= chunk then [rows] else [rows[..chunk]] + Cut(rows[chunk..], chunk)
  }

  /** Statements run one after the other until one fails. */
  function InTurn(t: Table, statements: seq<seq<Row>>): Effect
    decreases |statements|
  {
    if statements == [] then Effect(t, true) else
      var e := Statement(t, statements[0]);
      if e.ok then InTurn(e.table, statements[1..]) else e
  }

  /** A page job runs the statements that its rows are cut into. */
  lemma {:induction false} FlushedInTurn(t: Table, pending: seq<Row>, rows: seq<Row>, chunk: nat)
    requires |pending| < chunk
    ensures Flushed(t, pending, rows, chunk) == InTurn(t, Cut(pending + rows, chunk))
    decreases |rows|
  {
    if rows == [] {
      assert pending + rows == pending;
    } else {
      var grown := pending + [rows[0]];
      var all := pending + rows;
      assert all == grown + rows[1..];
      if |grown| == chunk {
        FlushedInTurn(Statement(t, grown).table, [], rows[1..], chunk);
        assert [] + rows[1..] == rows[1..];
        FirstCut(grown, rows[1..], chunk);
      } else {
        FlushedInTurn(t, grown, rows[1..], chunk);
      }
    }
  }

  lemma FirstCut(first: seq<Row>, rest: seq<Row>, chunk: nat)
    requires |first| == chunk > 0
    ensures Cut(first + rest, chunk) == [first] + Cut(rest, chunk)
  {
    var all := first + rest;
    if rest == [] {
      assert all == first;
    } else {
      assert all[..chunk] == first && all[chunk..] == rest;
    }
  }

  lemma {:induction false} CutKeepsRows(rows: seq<Row>, chunk: nat)
    requires chunk > 0
    ensures Flat(Cut(rows, chunk)) == rows
  {
    if |rows| > chunk {
      CutKeepsRows(rows[chunk..], chunk);
      FlatOfFirst(rows[..chunk], Cut(rows[chunk..], chunk));
      assert rows == rows[..chunk] + rows[chunk..];
    } else if rows != [] {
      FlatOfFirst(rows, []);
      assert [rows] + [] == [rows] && rows + [] == rows;
    }
  }

  // ---- The machine -------------------------------------------------------------------------------

  /** The pages as their statements, and what the sync stamps and sweeps. */
  datatype Sync = Sync(pages: seq<seq<seq<Row>>>, source: string, county: string, generation: int)
  {
    function Rows(): seq<Row> { Flat(Flat(pages)) }

    ghost predicate Valid() {
      pages != [] && forall r :: r in Rows() ==> r.parcel.generation == generation
    }

    /** No statement is refused. */
    ghost predicate Accepted() {
      forall i, j :: 0 <= i < |pages| && 0 <= j < |pages[i]| ==> DistinctKeys(pages[i][j])
    }

    /** All features with key k agree. */
    ghost predicate Agrees(k: Key) {
      forall r, q :: r in Rows() && q in Rows() && r.key == k && q.key == k ==> r == q
    }
  }

  type WorkerId = nat

  /** A job on a page has run that many of its statements. */
  datatype Pc = Idle | Running(page: nat, ran: nat)

  /** enqueued pages have had a job; written is history. */
  datatype State = State(table: Table, enqueued: nat, workers: map<WorkerId, Pc>, written: set<Row>, swept: bool)

  datatype Step =
    | Start(w: WorkerId, page: nat)
    | RunStatement(w: WorkerId)
    | EnqueueNext(w: WorkerId)
    | Sweep(w: WorkerId)
    | GiveUp(w: WorkerId)
    | Outside(table: Table)

  function PcOf(s: State, w: WorkerId): Pc { if w in s.workers then s.workers[w] else Idle }

  function Go(s: State, w: WorkerId, pc: Pc): State { s.(workers := s.workers[w := pc]) }

  function Wrote(s: State, rows: seq<Row>): State {
    s.(table := Statement(s.table, rows).table, written := s.written + set r | r in rows)
  }

  predicate HasNext(y: Sync, pc: Pc) { pc.Running? && pc.page < |y.pages| && pc.ran < |y.pages[pc.page]| }

  predicate AtEnd(y: Sync, pc: Pc) { pc.Running? && pc.page < |y.pages| && pc.ran == |y.pages[pc.page]| }

  /** A page that has been enqueued may be run any number of times, by a retry or by a worker that was taken
      for dead, and each job may be cut off anywhere. The job that reaches the end of its page enqueues the
      next one, or sweeps if its page is the last. */
  ghost predicate Next(y: Sync, s: State, t: State, a: Step) {
    match a
    case Start(w, page) => PcOf(s, w).Idle? && page < s.enqueued && t == Go(s, w, Running(page, 0))
    case RunStatement(w) =>
      var pc := PcOf(s, w);
      && HasNext(y, pc) && Statement(s.table, y.pages[pc.page][pc.ran]).ok
      && t == Wrote(Go(s, w, pc.(ran := pc.ran + 1)), y.pages[pc.page][pc.ran])
    case EnqueueNext(w) =>
      && AtEnd(y, PcOf(s, w)) && PcOf(s, w).page + 1 < |y.pages|
      && var next := PcOf(s, w).page + 2;
      t == Go(s, w, Idle).(enqueued := if s.enqueued < next then next else s.enqueued)
    case Sweep(w) =>
      && AtEnd(y, PcOf(s, w)) && PcOf(s, w).page == |y.pages| - 1
      && t == Go(s, w, Idle).(table := Swept(s.table, y.source, y.county, y.generation), swept := true)
    case GiveUp(w) => t == Go(s, w, Idle)
    case Outside(table) => t == s.(table := table)
  }

  ghost predicate Run(y: Sync, states: seq<State>, steps: seq<Step>) {
    && |states| == |steps| + 1
    && states[0] == State(states[0].table, 1, map[], {}, false)
    && forall i :: 0 <= i < |steps| ==> Next(y, states[i], states[i + 1], steps[i])
  }

  /** Nobody else writes key k. */
  ghost predicate Undisturbed(states: seq<State>, steps: seq<Step>, k: Key)
    requires |states| == |steps| + 1
  {
    forall i :: 0 <= i < |steps| && steps[i].Outside? ==> Find(states[i + 1].table, k) == Find(states[i].table, k)
  }

  // ---- Pages are written in order ----------------------------------------------------------------

  /** The statement has run: it was accepted and its rows are written. */
  ghost predicate Ran(s: State, rows: seq<Row>) {
    DistinctKeys(rows) && forall r :: r in rows ==> r in s.written
  }

  ghost predicate RanTo(y: Sync, s: State, i: nat, n: nat)
    requires i < |y.pages|
  {
    n <= |y.pages[i]| && forall j :: 0 <= j < n ==> Ran(s, y.pages[i][j])
  }

  ghost predicate PageRan(y: Sync, s: State, i: nat)
    requires i < |y.pages|
  {
    RanTo(y, s, i, |y.pages[i]|)
  }

  /** Pages before the last enqueued one have run, and a sweep needs all of them. */
  ghost predicate InOrder(y: Sync, s: State) {
    && 1 <= s.enqueued <= |y.pages|
    && (forall w :: PcOf(s, w).Running? ==>
       PcOf(s, w).page < s.enqueued && RanTo(y, s, PcOf(s, w).page, PcOf(s, w).ran))
    && (forall i :: 0 <= i < s.enqueued - 1 ==> PageRan(y, s, i))
    && (s.swept ==> forall i :: 0 <= i < |y.pages| ==> PageRan(y, s, i))
    && (forall r :: r in s.written ==> r in y.Rows())
  }

  lemma InRows(y: Sync, i: nat, j: nat, r: Row)
    requires i < |y.pages| && j < |y.pages[i]| && r in y.pages[i][j]
    ensures r in y.Rows()
  {
    InFlat(y.pages, y.pages[i][j]);
    InFlat(Flat(y.pages), r);
  }

  lemma RowOfStatement(y: Sync, r: Row) returns (i: nat, j: nat)
    requires r in y.Rows()
    ensures i < |y.pages| && j < |y.pages[i]| && r in y.pages[i][j]
  {
    InFlat(Flat(y.pages), r);
    var m :| 0 <= m < |Flat(y.pages)| && r in Flat(y.pages)[m];
    InFlat(y.pages, Flat(y.pages)[m]);
    i :| i < |y.pages| && Flat(y.pages)[m] in y.pages[i];
    j :| j < |y.pages[i]| && y.pages[i][j] == Flat(y.pages)[m];
  }

  lemma RanStays(y: Sync, s: State, t: State, i: nat, n: nat)
    requires i < |y.pages| && RanTo(y, s, i, n) && s.written <= t.written
    ensures RanTo(y, t, i, n)
  {
    assert forall j :: 0 <= j < n && Ran(s, y.pages[i][j]) ==> Ran(t, y.pages[i][j]);
  }

  lemma AllStay(y: Sync, s: State, t: State)
    requires s.written <= t.written
    ensures forall i, n: nat :: 0 <= i < |y.pages| && RanTo(y, s, i, n) ==> RanTo(y, t, i, n)
    ensures forall i :: 0 <= i < |y.pages| && PageRan(y, s, i) ==> PageRan(y, t, i)
  {
    forall i, n: nat | 0 <= i < |y.pages| && RanTo(y, s, i, n) ensures RanTo(y, t, i, n) { RanStays(y, s, t, i, n); }
    forall i | 0 <= i < |y.pages| && PageRan(y, s, i) ensures PageRan(y, t, i) { RanStays(y, s, t, i, |y.pages[i]|); }
  }

  lemma StatementKeepsOrder(y: Sync, s: State, t: State, w: WorkerId)
    requires InOrder(y, s) && Next(y, s, t, RunStatement(w))
    ensures InOrder(y, t)
  {
    var pc := PcOf(s, w);
    var rows := y.pages[pc.page][pc.ran];
    AllStay(y, s, t);
    assert Ran(t, rows);
    assert RanTo(y, t, pc.page, pc.ran + 1);
    forall v | PcOf(t, v).Running? && v != w
      ensures PcOf(t, v).page < t.enqueued && RanTo(y, t, PcOf(t, v).page, PcOf(t, v).ran)
    {
      assert PcOf(t, v) == PcOf(s, v);
    }
    forall r | r in t.written && r !in s.written ensures r in y.Rows() { InRows(y, pc.page, pc.ran, r); }
  }

  lemma OtherStepKeepsOrder(y: Sync, s: State, t: State, a: Step)
    requires InOrder(y, s) && Next(y, s, t, a) && !a.RunStatement?
    ensures InOrder(y, t)
  {
    AllStay(y, s, t);
    forall v | PcOf(t, v).Running?
      ensures PcOf(t, v).page < t.enqueued && RanTo(y, t, PcOf(t, v).page, PcOf(t, v).ran)
    {
      if PcOf(t, v) == PcOf(s, v) { assert PcOf(s, v).Running?; }
    }
  }

  // ---- One row -----------------------------------------------------------------------------------

  /** One of the rows with key k gave the table row. */
  ghost predicate HeldBy(t: Table, k: Key, r: Row) {
    r.key == k && Find(t, k) == Some(r.parcel)
  }

  /** What one table row is, for a key that nobody else writes. */
  ghost predicate RowIs(y: Sync, s: State, before: Table, k: Key) {
    && ((exists r :: r in s.written && r.key == k) ==> exists r :: r in s.written && HeldBy(s.table, k, r))
    && ((forall r :: r in s.written ==> r.key != k) ==> Find(s.table, k) == OldRow(y, s.swept, before, k))
  }

  /** What is left of an old row. */
  function OldRow(y: Sync, swept: bool, before: Table, k: Key): Option<Parcel> {
    if k in before && !(swept && Stale(k, before[k], y.source, y.county, y.generation)) then Some(before[k]) else None
  }

  lemma StatementKeepsRow(y: Sync, s: State, t: State, rows: seq<Row>, before: Table, k: Key)
    requires RowIs(y, s, before, k) && Statement(s.table, rows).ok && t == Wrote(s, rows)
    ensures RowIs(y, t, before, k)
  {
    UpsertedFind(s.table, rows, k);
    LastWriteIsLast(rows, k);
    if LastWrite(rows, k).Some? {
      var j :| IsLast(rows, k, j) && LastWrite(rows, k) == Some(rows[j].parcel);
      assert rows[j] in rows;
      assert rows[j] in t.written && HeldBy(t.table, k, rows[j]);
    } else {
      assert forall r :: r in rows ==> r.key != k;
      if r :| r in s.written && HeldBy(s.table, k, r) { assert r in t.written && HeldBy(t.table, k, r); }
    }
  }

  lemma SweepKeepsRow(y: Sync, s: State, t: State, before: Table, k: Key)
    requires y.Valid() && InOrder(y, s) && RowIs(y, s, before, k)
    requires t.table == Swept(s.table, y.source, y.county, y.generation) && t.written == s.written && t.swept
    ensures RowIs(y, t, before, k)
  {
    if r :| r in s.written && HeldBy(s.table, k, r) { assert HeldBy(t.table, k, r); }
  }

  lemma OtherStepKeepsRow(y: Sync, s: State, t: State, before: Table, k: Key)
    requires RowIs(y, s, before, k) && t.written == s.written && t.swept == s.swept
    requires Find(t.table, k) == Find(s.table, k)
    ensures RowIs(y, t, before, k)
  {
    if r :| r in s.written && HeldBy(s.table, k, r) { assert HeldBy(t.table, k, r); }
  }

  lemma {:induction false} RowAlways(y: Sync, states: seq<State>, steps: seq<Step>, k: Key, n: nat)
    requires y.Valid() && Run(y, states, steps) && Undisturbed(states, steps, k) && n < |states|
    ensures InOrder(y, states[n]) && RowIs(y, states[n], states[0].table, k)
  {
    if n > 0 {
      var s, t, a := states[n - 1], states[n], steps[n - 1];
      RowAlways(y, states, steps, k, n - 1);
      if a.RunStatement? {
        var pc := PcOf(s, a.w);
        StatementKeepsOrder(y, s, t, a.w);
        StatementKeepsRow(y, Go(s, a.w, pc.(ran := pc.ran + 1)), t, y.pages[pc.page][pc.ran], states[0].table, k);
      } else {
        OtherStepKeepsOrder(y, s, t, a);
        if a.Sweep? {
          SweepKeepsRow(y, s, t, states[0].table, k);
        } else {
          OtherStepKeepsRow(y, s, t, states[0].table, k);
        }
      }
    }
  }

  /** Before the sweep no row is gone or changed but by this sync's own features. After it, whatever was
      retried, repeated or cut off, a row that nobody else writes is one of those extracted with its key, or
      what the sweep leaves of the old row if there are none. */
  lemma RetriedSyncSwaps(y: Sync, states: seq<State>, steps: seq<Step>, k: Key, n: nat)
    requires y.Valid() && Run(y, states, steps) && Undisturbed(states, steps, k) && n < |states|
    ensures var before, after, rows := states[0].table, states[n].table, y.Rows();
      if states[n].swept && LastWrite(rows, k).Some? then exists r :: r in rows && HeldBy(after, k, r)
      else if states[n].swept then Find(after, k) == SwappedRow(before, rows, y.source, y.county, y.generation, k)
      else Find(after, k) == Find(before, k) || exists r :: r in rows && HeldBy(after, k, r)
  {
    var s, rows := states[n], y.Rows();
    RowAlways(y, states, steps, k, n);
    LastWriteIsLast(rows, k);
    if r :| r in s.written && HeldBy(s.table, k, r) {
      assert r in rows;
    } else if s.swept && LastWrite(rows, k).Some? {
      var j :| IsLast(rows, k, j) && LastWrite(rows, k) == Some(rows[j].parcel);
      assert rows[j] in rows;
      SweptIsWritten(y, s, rows[j]);
    }
  }

  lemma SweptIsWritten(y: Sync, s: State, r: Row)
    requires InOrder(y, s) && s.swept && r in y.Rows()
    ensures r in s.written
  {
    var i, j := RowOfStatement(y, r);
    assert PageRan(y, s, i) && Ran(s, y.pages[i][j]);
  }

  // ---- Runs --------------------------------------------------------------------------------------

  ghost predicate OwnSteps(steps: seq<Step>) { forall i :: 0 <= i < |steps| ==> !steps[i].Outside? }

  /** A run from a table in which nobody else writes, and the state it has reached. */
  ghost predicate Reaches(y: Sync, before: Table, states: seq<State>, steps: seq<Step>, s: State) {
    Run(y, states, steps) && OwnSteps(steps) && states[0].table == before && states[|steps|] == s
  }

  lemma OneMoreStep(y: Sync, before: Table, states: seq<State>, steps: seq<Step>, s: State, t: State, a: Step)
    requires Reaches(y, before, states, steps, s) && Next(y, s, t, a) && !a.Outside?
    ensures Reaches(y, before, states + [t], steps + [a], t)
  {
    var all, both := states + [t], steps + [a];
    forall i | 0 <= i < |both| ensures Next(y, all[i], all[i + 1], both[i]) {
      if i < |steps| { assert all[i] == states[i] && all[i + 1] == states[i + 1] && both[i] == steps[i]; }
    }
  }

  /** A job on a page can run its first n statements. */
  lemma {:induction false} RunsStatements(y: Sync, before: Table, states: seq<State>, steps: seq<Step>, s: State,
                                          w: WorkerId, i: nat, n: nat)
    returns (all: seq<State>, both: seq<Step>, t: State)
    requires y.Accepted() && Reaches(y, before, states, steps, s)
    requires PcOf(s, w).Idle? && i < s.enqueued && i < |y.pages| && n <= |y.pages[i]|
    ensures Reaches(y, before, all, both, t) && t.enqueued == s.enqueued && t.swept == s.swept
    ensures PcOf(t, w) == Running(i, n) && forall v :: v != w ==> PcOf(t, v) == PcOf(s, v)
    ensures n > 0 ==> forall r :: r in y.pages[i][n - 1] ==> HeldBy(t.table, r.key, r)
  {
    if n == 0 {
      t := Go(s, w, Running(i, 0));
      OneMoreStep(y, before, states, steps, s, t, Start(w, i));
      all, both := states + [t], steps + [Start(w, i)];
    } else {
      var u: State;
      all, both, u := RunsStatements(y, before, states, steps, s, w, i, n - 1);
      var rows := y.pages[i][n - 1];
      t := Wrote(Go(u, w, Running(i, n)), rows);
      OneMoreStep(y, before, all, both, u, t, RunStatement(w));
      all, both := all + [t], both + [RunStatement(w)];
      forall r | r in rows ensures HeldBy(t.table, r.key, r) { WrittenIsHeld(u.table, rows, r); }
    }
  }

  lemma WrittenIsHeld(t: Table, rows: seq<Row>, r: Row)
    requires DistinctKeys(rows) && r in rows
    ensures HeldBy(Upserted(t, rows), r.key, r)
  {
    UpsertedFind(t, rows, r.key);
    LastWriteIsLast(rows, r.key);
    var j :| 0 <= j < |rows| && rows[j] == r;
    var i :| IsLast(rows, r.key, i) && LastWrite(rows, r.key) == Some(rows[i].parcel);
    assert i == j;
  }

  /** The pages before page n run one after the other. */
  lemma {:induction false} RunsPages(y: Sync, before: Table, n: nat)
    returns (states: seq<State>, steps: seq<Step>, s: State)
    requires y.Accepted() && n < |y.pages|
    ensures Reaches(y, before, states, steps, s) && s.enqueued == n + 1 && forall w :: PcOf(s, w).Idle?
  {
    if n == 0 {
      s := State(before, 1, map[], {}, false);
      states, steps := [s], [];
    } else {
      states, steps, s := RunsPages(y, before, n - 1);
      var u: State;
      states, steps, u := RunsStatements(y, before, states, steps, s, 0, n - 1, |y.pages[n - 1]|);
      s := Go(u, 0, Idle).(enqueued := n + 1);
      assert forall w :: w != 0 ==> PcOf(s, w) == PcOf(u, w);
      OneMoreStep(y, before, states, steps, u, s, EnqueueNext(0));
      states, steps := states + [s], steps + [EnqueueNext(0)];
    }
  }

  /** All pages run one after the other, and the last job sweeps. */
  lemma RunsSync(y: Sync, before: Table) returns (states: seq<State>, steps: seq<Step>, s: State)
    requires y.Valid() && y.Accepted()
    ensures Reaches(y, before, states, steps, s) && s.enqueued == |y.pages| && s.swept && forall w :: PcOf(s, w).Idle?
  {
    var n := |y.pages| - 1;
    states, steps, s := RunsPages(y, before, n);
    var u: State;
    states, steps, u := RunsStatements(y, before, states, steps, s, 0, n, |y.pages[n]|);
    s := Go(u, 0, Idle).(table := Swept(u.table, y.source, y.county, y.generation), swept := true);
    assert forall w :: w != 0 ==> PcOf(s, w) == PcOf(u, w);
    OneMoreStep(y, before, states, steps, u, s, Sweep(0));
    states, steps := states + [s], steps + [Sweep(0)];
  }

  // ---- When a retried sync swaps a row -----------------------------------------------------------

  /** Every run in which nobody else writes key k has swapped its row once it has swept. */
  ghost predicate AlwaysSwaps(y: Sync, k: Key) {
    forall states: seq<State>, steps: seq<Step>, n: nat ::
      Run(y, states, steps) && Undisturbed(states, steps, k) && n < |states| && states[n].swept ==>
      Find(states[n].table, k) == SwappedRow(states[0].table, y.Rows(), y.source, y.county, y.generation, k)
  }

  /** When the features with key k agree, a retried sync swaps its row as an undisturbed one does. */
  lemma RetriedSyncIsGenerationSwap(y: Sync, states: seq<State>, steps: seq<Step>, k: Key, n: nat)
    requires y.Valid() && y.Agrees(k)
    requires Run(y, states, steps) && Undisturbed(states, steps, k) && n < |states| && states[n].swept
    ensures Find(states[n].table, k) == SwappedRow(states[0].table, y.Rows(), y.source, y.county, y.generation, k)
  {
    var rows := y.Rows();
    RetriedSyncSwaps(y, states, steps, k, n);
    LastWriteIsLast(rows, k);
    if LastWrite(rows, k).Some? {
      var j :| IsLast(rows, k, j) && LastWrite(rows, k) == Some(rows[j].parcel);
      assert rows[j] in rows;
    }
  }

  /** Features that disagree can leave a row that is not the last write: from any table, the whole sync runs
      and then a second worker repeats the page of another of them, up to its statement. */
  lemma RetryUndoesLastWrite(y: Sync, r: Row, before: Table) returns (states: seq<State>, steps: seq<Step>, s: State)
    requires y.Valid() && y.Accepted() && r in y.Rows()
    ensures Reaches(y, before, states, steps, s) && s.swept && HeldBy(s.table, r.key, r)
  {
    var i, j := RowOfStatement(y, r);
    states, steps, s := RunsSync(y, before);
    states, steps, s := RunsStatements(y, before, states, steps, s, 1, i, j + 1);
  }

  /** A statement that repeats a key keeps every run from the sweep. */
  lemma SweptIsAccepted(y: Sync, s: State)
    requires InOrder(y, s) && s.swept
    ensures y.Accepted()
  {
    forall i, j | 0 <= i < |y.pages| && 0 <= j < |y.pages[i]| ensures DistinctKeys(y.pages[i][j]) {
      assert PageRan(y, s, i) && Ran(s, y.pages[i][j]);
    }
  }

  /** The row of key k is swapped by every run that sweeps exactly when the features with key k agree, or when
      no run sweeps because a statement is refused. */
  lemma SwapsIffAgrees(y: Sync, k: Key)
    requires y.Valid()
    ensures AlwaysSwaps(y, k) <==> y.Agrees(k) || !y.Accepted()
  {
    if y.Agrees(k) || !y.Accepted() {
      forall states: seq<State>, steps: seq<Step>, n: nat
        | Run(y, states, steps) && Undisturbed(states, steps, k) && n < |states| && states[n].swept
        ensures Find(states[n].table, k) == SwappedRow(states[0].table, y.Rows(), y.source, y.county, y.generation, k)
      {
        RowAlways(y, states, steps, k, n);
        SweptIsAccepted(y, states[n]);
        RetriedSyncIsGenerationSwap(y, states, steps, k, n);
      }
    } else {
      var r, q :| r in y.Rows() && q in y.Rows() && r.key == k && q.key == k && r != q;
      LastWriteIsLast(y.Rows(), k);
      var lost := if LastWrite(y.Rows(), k) == Some(r.parcel) then q else r;
      var states, steps, s := RetryUndoesLastWrite(y, lost, map[]);
      assert states[|steps|] == s && Undisturbed(states, steps, k);
      assert Find(states[|steps|].table, k) == Some(lost.parcel) != LastWrite(y.Rows(), k);
      SomeLastWrite(y.Rows(), lost);
    }
  }

  lemma SomeLastWrite(rows: seq<Row>, r: Row)
    requires r in rows
    ensures LastWrite(rows, r.key).Some?
  {
    LastWriteIsLast(rows, r.key);
  }

  // ---- The sync of an upstream -------------------------------------------------------------------

  /** The pages that a stable list of features is served in, from an offset on. */
  function PagesOf(cfg: Config, args: PageArgs, all: seq<Feature>, offset: nat): seq<seq<seq<Row>>>
    requires offset <= |all|
    decreases |all| - offset
  {
    var page, end := Served(cfg, all, offset), offset + PageSize(cfg);
    [Cut(ExtractRows(cfg, args, page.features), Chunk(cfg))] +
    if MorePages(cfg, page) then ServedStretch(cfg, all, offset); PagesOf(cfg, args, all, end) else []
  }

  /** What a sync does that starts on a list with features. */
  function SyncOf(cfg: Config, args: PageArgs, all: seq<Feature>): Sync {
    Sync(PagesOf(cfg, args, all, 0), args.source, Scope(cfg, args), args.generation)
  }

  lemma Regrouped<T>(x: seq<T>, y: seq<T>, z: seq<T>)
    ensures x + (y + z) == (x + y) + z
  {
  }

  lemma {:induction false} FlatConcat<T>(a: seq<seq<T>>, b: seq<seq<T>>)
    ensures Flat(a + b) == Flat(a) + Flat(b)
  {
    assert Flat<T>([]) == [];
    hide Flat;
    if a == [] {
      assert a + b == b && [] + Flat(b) == Flat(b);
    } else {
      var first, rest := a[0], a[1..];
      FlatConcat(rest, b);
      FlatOfFirst(first, rest);
      FlatOfFirst(first, rest + b);
      Regrouped([first], rest, b);
      Regrouped(first, Flat(rest), Flat(b));
      assert a == [first] + rest;
    }
  }

  lemma PageHoldsRows(first: seq<seq<Row>>, rest: seq<seq<seq<Row>>>, rows: seq<Row>, others: seq<Row>)
    requires Flat(first) == rows && Flat(Flat(rest)) == others
    ensures Flat(Flat([first] + rest)) == rows + others
  {
    FlatOfFirst(first, rest);
    FlatConcat(first, Flat(rest));
  }

  lemma PagesFrom(cfg: Config, args: PageArgs, all: seq<Feature>, offset: nat)
    requires offset <= |all|
    ensures var page, end := Served(cfg, all, offset), offset + PageSize(cfg);
      var first := [Cut(ExtractRows(cfg, args, page.features), Chunk(cfg))];
      if MorePages(cfg, page) then
        end <= |all| && PagesOf(cfg, args, all, offset) == first + PagesOf(cfg, args, all, end)
      else PagesOf(cfg, args, all, offset) == first + []
  {
    hide Cut, ExtractRows, Served;
    ServedStretch(cfg, all, offset);
  }

  lemma StretchesMeet(cfg: Config, all: seq<Feature>, offset: nat)
    requires offset <= |all|
    ensures var page, end := Served(cfg, all, offset), offset + PageSize(cfg);
      if MorePages(cfg, page)
      then end <= |all| && page.features + all[end..] == all[offset..]
      else page.features == all[offset..]
  {
    ServedStretch(cfg, all, offset);
  }

  lemma {:induction false} PagesHoldRows(cfg: Config, args: PageArgs, all: seq<Feature>, offset: nat)
    requires offset <= |all|
    ensures Flat(Flat(PagesOf(cfg, args, all, offset))) == ExtractRows(cfg, args, all[offset..])
    decreases |all| - offset
  {
    assert Flat(Flat<seq<Row>>([])) == [];
    hide ExtractRows, Cut, Flat, PagesOf, Served, MorePages;
    var page, end := Served(cfg, all, offset), offset + PageSize(cfg);
    var rows := ExtractRows(cfg, args, page.features);
    PagesFrom(cfg, args, all, offset);
    StretchesMeet(cfg, all, offset);
    CutKeepsRows(rows, Chunk(cfg));
    if MorePages(cfg, page) {
      PagesHoldRows(cfg, args, all, end);
      PageHoldsRows(Cut(rows, Chunk(cfg)), PagesOf(cfg, args, all, end), rows, ExtractRows(cfg, args, all[end..]));
      ExtractRowsConcat(cfg, args, page.features, all[end..]);
    } else {
      PageHoldsRows(Cut(rows, Chunk(cfg)), [], rows, []);
    }
  }

  /** The sync of a stable upstream is one of those above, and its rows are those of all features. Without any
      feature there is no sync: the first page fails. */
  lemma SyncOfUpstream(cfg: Config, args: PageArgs, all: seq<Feature>)
    requires args.offset == 0
    ensures all != [] ==>
      SyncOf(cfg, args, all).Valid() && SyncOf(cfg, args, all).Rows() == ExtractRows(cfg, args, all)
    ensures all == [] ==> forall t :: PageOutcome(t, cfg, args, Served(cfg, all, 0)) == Failed(t)
  {
    PagesHoldRows(cfg, args, all, 0);
    assert all[0..] == all;
    forall r | r in ExtractRows(cfg, args, all) ensures r.parcel.generation == args.generation {
      ExtractRowsAt(cfg, args, all, r);
    }
  }
}
