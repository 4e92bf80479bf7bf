/** Pages that do not settle go wrong: whatever the mirror, some fail-stop run enqueues their completion job with a
    listing that is not what the page says (internal/queue/worker.go, internal/service/sync/listing_mirror.go).

    One worker takes a chunk and is slow; a second one does all other chunks; then the first does its own. */
module PersistUnsettled {
  import opened Wrappers
  import opened JobTables
  import opened ListingMirror
  import opened ListingMirrorOrder
  import opened ListingMirrorWriting
  import opened ReplicaPages
  import opened ReplicaPageOrder
  import opened PersistProtocol
  import opened PersistAccounting
  import opened PersistHydration
  import opened PersistSettled
  import PersistRace

  const Q := PersistRace.Q

  // ---- Runs --------------------------------------------------------------------------------------

  /** A fail-stop run from the mirror in which only page 0's chunk jobs change its listings. */
  ghost predicate CalmRun(states: seq<State>, steps: seq<Step>, mirror: Table) {
    && FailStopRun(states, steps) && states[0] == Start(mirror)
    && forall j :: 0 <= j < |steps| ==> Undisturbed(states[j], states[j + 1], steps[j], 0)
  }

  ghost predicate Reached(s: State, mirror: Table) {
    exists states, steps :: CalmRun(states, steps, mirror) && states[|steps|] == s
  }

  lemma ReachStart(mirror: Table)
    ensures Reached(Start(mirror), mirror)
  {
    var states: seq<State>, steps: seq<Step> := [Start(mirror)], [];
    assert CalmRun(states, steps, mirror) && states[|steps|] == Start(mirror);
  }

  lemma ReachNext(s: State, t: State, a: Step, mirror: Table)
    requires Reached(s, mirror) && Next(s, t, a) && FailStop(s, a) && Undisturbed(s, t, a, 0)
    ensures Reached(t, mirror)
  {
    hide Next, FailStop, Undisturbed;
    var states, steps :| CalmRun(states, steps, mirror) && states[|steps|] == s;
    var more, all := states + [t], steps + [a];
    assert CalmRun(more, all, mirror) && more[|all|] == t;
  }

  /** A step that neither reserves a job nor changes the mirror. */
  lemma ReachQuietly(s: State, t: State, a: Step, mirror: Table)
    requires Reached(s, mirror) && Next(s, t, a) && !a.ReserveJob? && t.mirror == s.mirror
    ensures Reached(t, mirror)
  {
    hide Next, Reached;
    ReachNext(s, t, a, mirror);
  }

  // ---- While chunks are left ---------------------------------------------------------------------

  /** The jobs from lo on are free; all others on file are reserved. */
  ghost predicate Free(t: Tables<Task>, n: nat, lo: nat, pending: nat) {
    && t.nextJob == n + 1
    && (forall id :: id in t.jobs ==>
         && id <= n
         && if lo <= id then t.jobs[id] == PersistRace.ChunkJob(id, 0, None, 0) else t.jobs[id].reservedAt == Some(0))
    && (forall id: nat :: lo <= id <= n ==> id in t.jobs)
    && 0 in t.batches && t.batches[0].pending == pending
    && t.batches[0].onComplete == Some(Callback(Q, PersistFinalize(Some(0))))
  }

  ghost predicate OnFile(s: State, parts: seq<seq<Row>>, base: Table) {
    && 0 in s.pages && s.pages[0].parts == parts
    && 0 in s.stored && s.stored[0].parts == parts && s.stored[0].base == base
  }

  /** A state of the run in which the chunk jobs from lo on are free and pending ones are not counted. */
  ghost predicate Open(s: State, parts: seq<seq<Row>>, base: Table, lo: nat, pending: nat) {
    Reached(s, base) && Free(s.tables, |parts|, lo, pending) && OnFile(s, parts, base)
  }

  /** A worker with chunk c in hand. */
  ghost predicate HoldsChunk(p: Pc, n: nat, lo: nat, c: nat) {
    p.Holding? && c < n && p.r.id < lo && p.r.job.task == PersistChunk(0, c + 1) && p.r.job.batch == Some(0) &&
      p.r.job.queue == Q
  }

  lemma NothingStale(t: Tables<Task>, n: nat, lo: nat, pending: nat)
    requires Free(t, n, lo, pending)
    ensures Reclaim(t, 0, 0) == t && forall id :: id in t.jobs ==> !Stale(t.jobs[id], 0)
  {
    assert forall id :: id in t.jobs ==> !Stale(t.jobs[id], 0);
    assert Reclaim(t, 0, 0).jobs == t.jobs;
  }

  lemma LeastIsNext(t: Tables<Task>, n: nat, lo: nat, pending: nat)
    requires Free(t, n, lo, pending) && lo <= n
    ensures Candidate(t, [Q], 0, 0) == Some(lo)
    ensures Free(Reserve(t, lo, 0, 0), n, lo + 1, pending)
    ensures Reserve(t, lo, 0, 0).jobs[lo] == PersistRace.ChunkJob(lo, 1, Some(0), 0)
  {
    NothingStale(t, n, lo, pending);
    assert Eligible(Reclaim(t, 0, 0), [Q], 0, lo);
    PersistRace.CandidateIs(t, 0, 0, lo);
  }

  /** An idle worker takes the least free job. */
  lemma Take(s: State, parts: seq<seq<Row>>, base: Table, lo: nat, pending: nat, w: WorkerId) returns (t: State)
    requires Open(s, parts, base, lo, pending) && 1 <= lo <= |parts| && PcOf(s, w).Idle?
    ensures Open(t, parts, base, lo + 1, pending) && OnlyMoves(s, t, w)
    ensures HoldsChunk(PcOf(t, w), |parts|, lo + 1, lo - 1)
  {
    LeastIsNext(s.tables, |parts|, lo, pending);
    NothingStale(s.tables, |parts|, lo, pending);
    var u := Reserve(s.tables, lo, 0, 0);
    t := Go(s, w, Holding(Reserved(lo, u.jobs[lo]))).(tables := u);
    assert ReserveStep(s, t, w, Q, 0, 0);
    hide Free, Reserve, ReserveStep, Reached;
    ReachNext(s, t, ReserveJob(w, Q, 0, 0), base);
  }

  // ---- One call with one flush -------------------------------------------------------------------

  /** The records of the rows, at the positions of their upserts. */
  lemma {:induction false} RecordsTracked(rows: seq<Row>, n: nat)
    requires n <= |rows|
    ensures Tracked(rows, Records(rows[..n]), UpsertPositions(rows, n))
  {
    UpsertPositionsFacts(rows, n);
    if n > 0 {
      RecordsTracked(rows, n - 1);
      RecordsSnoc(rows[..n - 1], rows[n - 1]);
      assert rows[..n] == rows[..n - 1] + [rows[n - 1]];
    }
  }

  function AllFlushed(rows: seq<Row>): Commit { Flushed(Records(rows), UpsertPositions(rows, |rows|)) }

  function Upserts(rows: seq<Row>): set<nat> { set p | p in Positions(|rows|) && rows[p].Upsert? }

  function Removes(rows: seq<Row>): set<nat> { set p | p in Positions(|rows|) && rows[p].Remove? }

  function Skips(rows: seq<Row>): set<nat> { set p | p in Positions(|rows|) && rows[p].Skip? }

  lemma FlushDescribes(rows: seq<Row>)
    ensures Describes(rows, AllFlushed(rows)) && PositionsOf(rows, AllFlushed(rows)) == Upserts(rows)
  {
    RecordsTracked(rows, |rows|);
    assert rows[..|rows|] == rows;
    UpsertPositionsFacts(rows, |rows|);
    hide UpsertPositions, Records;
    forall p | p in Upserts(rows) ensures p in PositionsOf(rows, AllFlushed(rows)) {
      assert p in UpsertPositions(rows, |rows|);
    }
  }

  lemma FlushKeepsOrder(rows: seq<Row>)
    ensures KeepsOrder(rows, Positions(|rows|), AllFlushed(rows))
  {
    UpsertPositionsFacts(rows, |rows|);
    hide UpsertPositions, Records;
  }

  lemma FlushCommits(u: Table, rows: seq<Row>)
    ensures Commits(u, rows, Positions(|rows|), Upserts(rows), Flush(u, Records(rows)))
  {
    FlushDescribes(rows);
    FlushKeepsOrder(rows);
    hide Describes, KeepsOrder, PositionsOf, Flush;
    assert After(AllFlushed(rows), u) == Flush(u, Records(rows));
  }

  lemma DeleteCommits(u: Table, rows: seq<Row>)
    ensures Commits(u, rows, Positions(|rows|) - Upserts(rows), Removes(rows), u - RemovedKeys(rows))
  {
    var c := Deleted(RemovedKeys(rows));
    assert Describes(rows, c) && KeepsOrder(rows, Positions(|rows|) - Upserts(rows), c);
    assert PositionsOf(rows, c) == Removes(rows);
  }

  lemma SkipCommits(u: Table, rows: seq<Row>)
    ensures Positions(|rows|) - Upserts(rows) - Removes(rows) == Skips(rows) && Skips(rows) - Skips(rows) == {}
    ensures Commits(u, rows, Skips(rows), Skips(rows), u)
  {
  }

  /** Worker w writes on at its chunk of page 0. */
  ghost predicate Writes0(s: State, w: WorkerId, r: Reserved<Task>, rows: seq<Row>, todo: set<nat>) {
    PcOf(s, w) == Writing(r, rows, todo) && r.job.task.PersistChunk? && r.job.task.page == 0
  }

  lemma WriteOn(s: State, parts: seq<seq<Row>>, base: Table, lo: nat, pending: nat, w: WorkerId, r: Reserved<Task>,
                rows: seq<Row>, todo: set<nat>, sub: set<nat>, mirror: Table) returns (t: State)
    requires Open(s, parts, base, lo, pending) && Writes0(s, w, r, rows, todo)
    requires sub <= todo && Commits(s.mirror, rows, todo, sub, mirror)
    ensures Open(t, parts, base, lo, pending) && OnlyMoves(s, t, w) && Writes0(t, w, r, rows, todo - sub)
    ensures t.mirror == mirror
  {
    t := Go(s, w, Writing(r, rows, todo - sub)).(mirror := mirror, stored := NoteWritten(s.stored, r.job.task, sub));
    assert WriteStep(s, t, w, sub, mirror);
    NoteWrittenGrows(s.stored, r.job.task, sub);
    hide Commits, NoteWritten, Reached, Free;
    ReachNext(s, t, WriteRows(w, sub, mirror), base);
  }

  lemma MoveOn(s: State, parts: seq<seq<Row>>, base: Table, lo: nat, pending: nat, w: WorkerId, q: Pc)
    returns (t: State)
    requires Open(s, parts, base, lo, pending) && w in s.workers && Moves(s, PcOf(s, w), q)
    ensures Open(t, parts, base, lo, pending) && OnlyMoves(s, t, w) && PcOf(t, w) == q && t.mirror == s.mirror
  {
    t := Go(s, w, q);
    hide Moves, Reached, Free;
    ReachQuietly(s, t, Move(w, q), base);
  }

  lemma WriteAll(s: State, parts: seq<seq<Row>>, base: Table, lo: nat, pending: nat, w: WorkerId, r: Reserved<Task>,
                 rows: seq<Row>) returns (t: State)
    requires Open(s, parts, base, lo, pending) && Writes0(s, w, r, rows, Positions(|rows|))
    ensures Open(t, parts, base, lo, pending) && OnlyMoves(s, t, w) && Writes0(t, w, r, rows, {})
    ensures t.mirror == HydratedAtOnce(s.mirror, rows)
  {
    FlushCommits(s.mirror, rows);
    DeleteCommits(Flush(s.mirror, Records(rows)), rows);
    SkipCommits(HydratedAtOnce(s.mirror, rows), rows);
    var todo := Positions(|rows|);
    hide Commits, Flush, Records, Open;
    var a := WriteOn(s, parts, base, lo, pending, w, r, rows, todo, Upserts(rows), Flush(s.mirror, Records(rows)));
    hide Upserts, Skips;
    var b := WriteOn(a, parts, base, lo, pending, w, r, rows, todo - Upserts(rows), Removes(rows),
      HydratedAtOnce(s.mirror, rows));
    t := WriteOn(b, parts, base, lo, pending, w, r, rows, Skips(rows), Skips(rows), b.mirror);
  }

  /** The whole call: one flush, one delete, and the rows that write nothing. */
  lemma WriteChunk(s: State, parts: seq<seq<Row>>, base: Table, lo: nat, pending: nat, w: WorkerId, c: nat)
    returns (t: State)
    requires Open(s, parts, base, lo, pending) && HoldsChunk(PcOf(s, w), |parts|, lo, c)
    ensures Open(t, parts, base, lo, pending) && OnlyMoves(s, t, w) && PcOf(t, w) == Succeeded(PcOf(s, w).r)
    ensures t.mirror == HydratedAtOnce(s.mirror, parts[c])
  {
    var r, rows := PcOf(s, w).r, parts[c];
    assert ChunkOf(s, r.job.task) == Some(rows);
    hide Open, HydratedAtOnce, ChunkOf;
    var a := MoveOn(s, parts, base, lo, pending, w, Writing(r, rows, Positions(|rows|)));
    var b := WriteAll(a, parts, base, lo, pending, w, r, rows);
    t := MoveOn(b, parts, base, lo, pending, w, Succeeded(r));
  }

  // ---- Counting down -----------------------------------------------------------------------------

  lemma DeleteStaysFree(t: Tables<Task>, n: nat, lo: nat, pending: nat, id: JobId)
    requires Free(t, n, lo, pending) && id < lo
    ensures Free(DeleteJob(t, id), n, lo, pending)
  {
  }

  lemma CountStaysFree(t: Tables<Task>, n: nat, lo: nat, pending: nat)
    requires Free(t, n, lo, pending) && pending > 0
    ensures CanCountDown(t, 0) && Free(CountDown(t, 0), n, lo, pending - 1)
  {
  }

  lemma Delete(s: State, parts: seq<seq<Row>>, base: Table, lo: nat, pending: nat, w: WorkerId) returns (t: State)
    requires Open(s, parts, base, lo, pending) && PcOf(s, w).Succeeded? && PcOf(s, w).r.id < lo
    requires PcOf(s, w).r.job.batch == Some(0) && PcOf(s, w).r.job.queue == Q
    ensures Open(t, parts, base, lo, pending) && OnlyMoves(s, t, w) && t.mirror == s.mirror
    ensures PcOf(t, w) == Counting(PcOf(s, w).r.id, 0, Q)
  {
    var r := PcOf(s, w).r;
    DeleteStaysFree(s.tables, |parts|, lo, pending, r.id);
    t := Go(s, w, Counting(r.id, 0, Q)).(
      tables := DeleteJob(s.tables, r.id),
      children := if r.id in s.tables.jobs then SetFate(s.children, r.id, Uncounted) else s.children);
    hide Free, DeleteJob, SetFate, Reached;
    assert DeleteStep(s, t, w);
    ReachQuietly(s, t, DeleteReserved(w), base);
  }

  lemma Count(s: State, parts: seq<seq<Row>>, base: Table, lo: nat, pending: nat, w: WorkerId, id: JobId)
    returns (t: State)
    requires Open(s, parts, base, lo, pending) && PcOf(s, w) == Counting(id, 0, Q) && pending > 0
    ensures Open(t, parts, base, lo, pending - 1) && OnlyMoves(s, t, w) && t.mirror == s.mirror
    ensures PcOf(t, w) == if pending == 1 then Announcing(0, Q, false) else Idle
  {
    CountStaysFree(s.tables, |parts|, lo, pending);
    var u := CountDown(s.tables, 0);
    assert u.batches[0].pending == pending - 1;
    t := Go(s, w, if pending == 1 then Announcing(0, Q, false) else Idle).(
      tables := u, children := SetFate(s.children, id, Counted));
    hide Free, CanCountDown, CountDown, SetFate, Reached;
    assert CountedStep(s, t, w);
    ReachQuietly(s, t, CountDownBatch(w), base);
  }

  /** A worker with a chunk in hand writes it, deletes its job and counts it down. */
  lemma DoChunk(s: State, parts: seq<seq<Row>>, base: Table, lo: nat, pending: nat, w: WorkerId, c: nat)
    returns (t: State)
    requires Open(s, parts, base, lo, pending) && HoldsChunk(PcOf(s, w), |parts|, lo, c) && pending > 0
    ensures Open(t, parts, base, lo, pending - 1) && OnlyMoves(s, t, w)
    ensures t.mirror == HydratedAtOnce(s.mirror, parts[c])
    ensures PcOf(t, w) == if pending == 1 then Announcing(0, Q, false) else Idle
  {
    hide Open, HydratedAtOnce;
    var a := WriteChunk(s, parts, base, lo, pending, w, c);
    var b := Delete(a, parts, base, lo, pending, w);
    t := Count(b, parts, base, lo, pending, w, PcOf(s, w).r.id);
  }

  /** Worker 0 does the chunk jobs from lo to before hi, one after the other; extra jobs are with others. */
  lemma {:induction false} Drain(s: State, parts: seq<seq<Row>>, base: Table, lo: nat, hi: nat, extra: nat)
    returns (t: State)
    requires 1 <= lo <= hi <= |parts| + 1 && hi <= |parts| + extra
    requires Open(s, parts, base, lo, |parts| + 1 - lo + extra) && PcOf(s, 0).Idle?
    ensures Open(t, parts, base, hi, |parts| + 1 - hi + extra) && PcOf(t, 0).Idle? && PcOf(t, 1) == PcOf(s, 1)
    decreases hi - lo
  {
    hide Open, HoldsChunk, HydratedAtOnce;
    if lo == hi {
      t := s;
    } else {
      var pending := |parts| + 1 - lo + extra;
      var a := Take(s, parts, base, lo, pending, 0);
      var b := DoChunk(a, parts, base, lo + 1, pending, 0, lo - 1);
      t := Drain(b, parts, base, lo + 1, hi, extra);
    }
  }

  // ---- The page is fetched -----------------------------------------------------------------------

  function Fetched(mirror: Table, v: Pc): State {
    State(PersistRace.FetchReserved(), map[], 0, mirror, map[0 := v, 1 := Idle], map[], map[], map[])
  }

  function Spawned(mirror: Table): State { Go(Go(Start(mirror), 0, Idle), 1, Idle) }

  lemma SpawnedReached(mirror: Table)
    ensures Reached(Spawned(mirror), mirror)
  {
    hide Reached;
    var s := Start(mirror);
    ReachStart(mirror);
    ReachQuietly(s, Go(s, 0, Idle), Spawn(0), mirror);
    ReachQuietly(Go(s, 0, Idle), Spawned(mirror), Spawn(1), mirror);
  }

  lemma FetchQueuedReached(mirror: Table)
    ensures Reached(Spawned(mirror).(tables := PersistRace.FetchQueued()), mirror)
  {
    hide Reached;
    var s := Spawned(mirror);
    SpawnedReached(mirror);
    assert Insert(s.tables, Q, FetchPage, None, 0).jobs == PersistRace.FetchQueued().jobs;
    ReachQuietly(s, s.(tables := PersistRace.FetchQueued()), EnqueuePlain(Q, FetchPage, 0), mirror);
  }

  lemma FetchHeld(mirror: Table)
    ensures Reached(Fetched(mirror, Holding(PersistRace.Fetcher())), mirror)
  {
    hide Reached;
    var s := Spawned(mirror).(tables := PersistRace.FetchQueued());
    var t := Fetched(mirror, Holding(PersistRace.Fetcher()));
    FetchQueuedReached(mirror);
    PersistRace.FetchTaken();
    hide Reserve, Candidate;
    assert t.workers == s.workers[0 := Holding(PersistRace.Fetcher())];
    assert ReserveStep(s, t, 0, Q, 0, 0);
    ReachNext(s, t, ReserveJob(0, Q, 0, 0), mirror);
  }

  function PageStored(parts: seq<seq<Row>>, mirror: Table, v: Pc): State {
    Fetched(mirror, v).(pages := map[0 := Page(parts, Pending, None)], nextPage := 1,
      stored := map[0 := Snapshot(parts, mirror, {})])
  }

  lemma StoredReached(parts: seq<seq<Row>>, mirror: Table)
    requires parts != []
    ensures Reached(PageStored(parts, mirror, Stored(PersistRace.Fetcher(), 0, |parts|)), mirror)
  {
    var s := Fetched(mirror, Holding(PersistRace.Fetcher()));
    var v := Stored(PersistRace.Fetcher(), 0, |parts|);
    var t := PageStored(parts, mirror, v);
    FetchHeld(mirror);
    hide Reached;
    assert t.workers == s.workers[0 := v] && t.pages == s.pages[0 := Page(parts, Pending, None)];
    assert StoreStep(s, t, 0, parts);
    ReachQuietly(s, t, StoreFetched(0, parts), mirror);
  }

  function ChunksQueued(n: nat): Tables<Task> { BatchInserted(PersistRace.FetchReserved(), 0, n, Q, 0) }

  /** The jobs of the page are queued, after that of the fetch. */
  lemma ChunksAreFree(n: nat)
    requires n > 0
    ensures Free(ChunksQueued(n), n, 1, n)
  {
    var t, u := PersistRace.FetchReserved(), ChunksQueued(n);
    var cb := Some(Callback(Q, PersistFinalize(Some(0))));
    var v := t.(batches := t.batches[0 := Batch(n, n, cb, None)], nextBatch := 1);
    var tasks := ChunkTasks(0, n);
    InsertAllJobs(v, Q, tasks, 0, 0);
    assert u == InsertAll(v, Q, tasks, 0, 0);
    hide InsertAll, ChunksQueued;
    forall id | id in u.jobs && 1 <= id ensures u.jobs[id] == PersistRace.ChunkJob(id, 0, None, 0) {
      assert u.jobs[1 + (id - 1)] == Job(Q, tasks[id - 1], Some(0), 0, None, 0);
    }
  }

  /** The fetch has enqueued the chunks of its page. */
  function Enqueued(parts: seq<seq<Row>>, mirror: Table, v: Pc): State {
    PageStored(parts, mirror, v).(tables := ChunksQueued(|parts|), children := NewChildren(1, |parts|, 0, 0))
  }

  lemma EnqueuedIsStep(parts: seq<seq<Row>>, mirror: Table)
    ensures BatchStep(PageStored(parts, mirror, Stored(PersistRace.Fetcher(), 0, |parts|)),
      Enqueued(parts, mirror, Batched(PersistRace.Fetcher(), 0, 0)), 0, Q, 0)
  {
    var s := PageStored(parts, mirror, Stored(PersistRace.Fetcher(), 0, |parts|));
    var t := Enqueued(parts, mirror, Batched(PersistRace.Fetcher(), 0, 0));
    hide BatchInserted, NewChildren;
    assert t.workers == s.workers[0 := Batched(PersistRace.Fetcher(), 0, 0)];
    assert s.children + NewChildren(1, |parts|, 0, 0) == t.children;
  }

  lemma EnqueuedReached(parts: seq<seq<Row>>, mirror: Table)
    requires parts != []
    ensures Reached(Enqueued(parts, mirror, Batched(PersistRace.Fetcher(), 0, 0)), mirror)
  {
    StoredReached(parts, mirror);
    EnqueuedIsStep(parts, mirror);
    hide Reached, BatchStep, ChunksQueued, NewChildren;
    ReachQuietly(PageStored(parts, mirror, Stored(PersistRace.Fetcher(), 0, |parts|)),
      Enqueued(parts, mirror, Batched(PersistRace.Fetcher(), 0, 0)), EnqueueChunks(0, Q, 0), mirror);
  }

  function Dispatched(parts: seq<seq<Row>>, mirror: Table, v: Pc): State {
    Enqueued(parts, mirror, v).(pages := map[0 := Page(parts, Processing, Some(0))])
  }

  lemma DispatchedReached(parts: seq<seq<Row>>, mirror: Table)
    requires parts != []
    ensures Reached(Dispatched(parts, mirror, Succeeded(PersistRace.Fetcher())), mirror)
  {
    var s := Enqueued(parts, mirror, Batched(PersistRace.Fetcher(), 0, 0));
    var t := Dispatched(parts, mirror, Succeeded(PersistRace.Fetcher()));
    EnqueuedReached(parts, mirror);
    hide Reached, ChunksQueued, NewChildren;
    assert t.workers == s.workers[0 := Succeeded(PersistRace.Fetcher())];
    assert t.pages == WithStatus(s.pages, 0, Processing, Some(0));
    assert MarkProcessingStep(s, t, 0);
    ReachQuietly(s, t, SetPage(0), mirror);
  }

  function Opened(parts: seq<seq<Row>>, mirror: Table): State {
    var s, u := Dispatched(parts, mirror, Idle), ChunksQueued(|parts|);
    s.(tables := DeleteJob(u, 0), children := if 0 in u.jobs then SetFate(s.children, 0, Uncounted) else s.children)
  }

  lemma OpenedIsStep(parts: seq<seq<Row>>, mirror: Table)
    ensures DeleteStep(Dispatched(parts, mirror, Succeeded(PersistRace.Fetcher())), Opened(parts, mirror), 0)
  {
    var s, t := Dispatched(parts, mirror, Succeeded(PersistRace.Fetcher())), Opened(parts, mirror);
    hide ChunksQueued, NewChildren, DeleteJob, SetFate;
    assert t.workers == s.workers[0 := Idle];
  }

  /** The fetch has stored the page, enqueued its chunks and finished. */
  lemma Opening(parts: seq<seq<Row>>, mirror: Table) returns (t: State)
    requires parts != []
    ensures Open(t, parts, mirror, 1, |parts|) && PcOf(t, 0).Idle? && PcOf(t, 1).Idle?
  {
    t := Opened(parts, mirror);
    DispatchedReached(parts, mirror);
    ChunksAreFree(|parts|);
    OpenedIsStep(parts, mirror);
    hide Reached, Free, ChunksQueued, NewChildren, DeleteJob, SetFate, DeleteStep;
    DeleteStaysFree(ChunksQueued(|parts|), |parts|, 1, |parts|, 0);
    ReachQuietly(Dispatched(parts, mirror, Succeeded(PersistRace.Fetcher())), t, DeleteReserved(0), mirror);
  }

  // ---- The whole run -----------------------------------------------------------------------------

  /** Every chunk is counted, and c was written last. */
  lemma LastIs(parts: seq<seq<Row>>, mirror: Table, c: nat) returns (u: Table, t: State)
    requires c < |parts|
    ensures Open(t, parts, mirror, |parts| + 1, 0) && PcOf(t, 1) == Announcing(0, Q, false)
    ensures t.mirror == HydratedAtOnce(u, parts[c])
  {
    var n := |parts|;
    hide Open, HydratedAtOnce;
    var a := Opening(parts, mirror);
    var b := Drain(a, parts, mirror, 1, c + 1, 0);
    var d := Take(b, parts, mirror, c + 1, n - c, 1);
    var e := Drain(d, parts, mirror, c + 2, n + 1, 1);
    u := e.mirror;
    t := DoChunk(e, parts, mirror, n + 1, 1, 1, c);
  }

  /** Page 0's batch may be announced, or has been. */
  ghost predicate Complete(s: State, parts: seq<seq<Row>>, base: Table) {
    Reached(s, base) && OnFile(s, parts, base) && FinalizedPage(s, 0) == Some(0)
  }

  lemma FinishComplete(s: State, parts: seq<seq<Row>>, base: Table) returns (t: State)
    requires Open(s, parts, base, |parts| + 1, 0) && PcOf(s, 1) == Announcing(0, Q, false)
    ensures Complete(t, parts, base) && PcOf(t, 1) == Announcing(0, Q, true) && t.mirror == s.mirror
  {
    hide Reached;
    t := Go(s, 1, Announcing(0, Q, true)).(tables := MarkFinished(s.tables, 0, 0));
    assert FinishStep(s, t, 1, 0);
    ReachQuietly(s, t, FinishBatch(1, 0), base);
  }

  /** The completion job of page 0 is enqueued. */
  lemma AnnounceComplete(s: State, parts: seq<seq<Row>>, base: Table) returns (t: State)
    requires Complete(s, parts, base) && PcOf(s, 1) == Announcing(0, Q, true)
    ensures Complete(t, parts, base) && Announcements(t, 0) > 0 && t.mirror == s.mirror
  {
    t := Go(s, 1, Idle).(tables := JobTables.Announce(s.tables, 0, Q, 0),
      announced := s.announced[0 := Announcements(s, 0) + 1]);
    AnnounceFrame(s.tables, 0, Q, 0);
    assert AnnounceStep(s, t, 1, 0);
    hide Reached, JobTables.Announce, AnnounceStep;
    ReachQuietly(s, t, AnnounceBatch(1, 0), base);
  }

  /** From any mirror, a fail-stop run finalizes the page with chunk c as the last that was written. */
  lemma ChunkCanBeLast(parts: seq<seq<Row>>, mirror: Table, c: nat)
    returns (states: seq<State>, steps: seq<Step>, u: Table)
    requires c < |parts|
    ensures Finalized(states, steps, |steps|, 0, 0) && states[0] == Start(mirror)
    ensures OnFile(states[|steps|], parts, mirror) && states[|steps|].mirror == HydratedAtOnce(u, parts[c])
  {
    hide Open, OnFile, HydratedAtOnce, Next, FailStop, Undisturbed, Announcements, FinalizedPage;
    var s;
    u, s := LastIs(parts, mirror, c);
    var v := FinishComplete(s, parts, mirror);
    var t := AnnounceComplete(v, parts, mirror);
    states, steps :| CalmRun(states, steps, mirror) && states[|steps|] == t;
  }

  // ---- The exact condition -----------------------------------------------------------------------

  /** From any mirror, a page that does not settle can be announced while the mirror does not hold it. */
  lemma UnsettledPageGoesWrong(parts: seq<seq<Row>>, mirror: Table) returns (states: seq<State>, steps: seq<Step>)
    requires !PageSettles(parts)
    ensures Finalized(states, steps, |steps|, 0, 0) && states[0] == Start(mirror)
    ensures OnFile(states[|steps|], parts, mirror) && !PageInMirror(states[|steps|], 0)
  {
    hide KeySettles, FailStopRun, Undisturbed, HydratedAtOnce, Spoils, Announcements, FinalizedPage;
    var k :| !KeySettles(parts, k);
    var c := UnsettledChunk(parts, k);
    var u;
    states, steps, u := ChunkCanBeLast(parts, mirror, c);
    SpoiltListing(states[|steps|], parts, mirror, u, c, k);
  }

  lemma SpoiltListing(s: State, parts: seq<seq<Row>>, base: Table, u: Table, c: nat, k: Key)
    requires OnFile(s, parts, base) && c < |parts| && s.mirror == HydratedAtOnce(u, parts[c])
    requires Spoils(parts[c], Flatten(parts), k) && !Foreign(k, Flatten(parts))
    ensures !PageInMirror(s, 0)
  {
    var all := Flatten(parts);
    hide HydratedAtOnce;
    var i :| 0 <= i < |all| && Writes(all[i]) && RowKey(all[i]) == k;
    ApplyRowsAt(base, all, k);
    assert Get(HydratedAtOnce(u, parts[c]), k) != ListingMirrorOrder.RowsAt(Get(base, k), all, k);
  }

  /** A run that finalizes page p, which was stored as these chunks. */
  ghost predicate FinalizedAs(states: seq<State>, steps: seq<Step>, i: nat, b: BatchId, p: PageId, parts: seq<seq<Row>>)
  {
    Finalized(states, steps, i, b, p) && StoredAs(states[i], p, parts)
  }

  /** Whenever a page of these chunks is finalized, the mirror holds it. */
  ghost predicate AlwaysInMirror(parts: seq<seq<Row>>) {
    forall states, steps, i: nat, b: BatchId, p: PageId ::
      FinalizedAs(states, steps, i, b, p, parts) ==> PageInMirror(states[i], p)
  }

  lemma SettledIsInMirror(states: seq<State>, steps: seq<Step>, i: nat, b: BatchId, p: PageId, parts: seq<seq<Row>>)
    requires FinalizedAs(states, steps, i, b, p, parts) && PageSettles(parts) && FlagsAgree(Flatten(parts))
    ensures PageInMirror(states[i], p)
  {
    FinalizedPageIsInTheMirror(states, steps, i, b, p);
  }

  /** For every page: it is in the mirror after every fail-stop run that finalizes it, whatever the start, the
      interleaving and the retries, exactly when it settles. */
  lemma InMirrorIffSettles(parts: seq<seq<Row>>)
    requires FlagsAgree(Flatten(parts))
    ensures AlwaysInMirror(parts) <==> PageSettles(parts)
  {
    if PageSettles(parts) {
      forall states, steps, i: nat, b: BatchId, p: PageId | FinalizedAs(states, steps, i, b, p, parts)
        ensures PageInMirror(states[i], p)
      {
        SettledIsInMirror(states, steps, i, b, p, parts);
      }
    } else {
      var states, steps := UnsettledPageGoesWrong(parts, map[]);
      assert FinalizedAs(states, steps, |steps|, 0, 0, parts);
    }
  }
}
