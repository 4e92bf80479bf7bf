/** Why fail-stop is needed: a run in which a slow worker's reservation is taken over while it is still
    alive, both workers count the same chunk down, and finalize is enqueued with a chunk unwritten
    (internal/queue/queue.go lines 206-210 and 299-335). */
module PersistRace {
  import opened Wrappers
  import opened JobTables
  import opened ListingMirror
  import opened ListingMirrorWriting
  import opened ReplicaPages
  import opened PersistProtocol
  import opened PersistHydration

  const Q := "q"

  /** A page of two chunks with one row each. */
  function Parts(a: Row, b: Row): seq<seq<Row>> { [[a], [b]] }

  function Last(states: seq<State>): State
    requires states != []
  {
    states[|states| - 1]
  }

  ghost predicate Reachable(s: State) {
    exists states, steps :: Run(states, steps) && Last(states) == s
  }

  lemma ReachNext(s: State, t: State, a: Step)
    requires Reachable(s) && Next(s, t, a)
    ensures Reachable(t)
  {
    var states, steps :| Run(states, steps) && Last(states) == s;
    assert Run(states + [t], steps + [a]) && Last(states + [t]) == t;
  }

  lemma ReachStart(mirror: Table)
    ensures Reachable(Start(mirror))
  {
    var states: seq<State>, steps: seq<Step> := [Start(mirror)], [];
    assert Run(states, steps) && Last(states) == Start(mirror);
  }

  lemma BySpawn(s: State, t: State, w: WorkerId)
    requires Reachable(s) && SpawnStep(s, t, w)
    ensures Reachable(t)
  {
    ReachNext(s, t, Spawn(w));
  }

  lemma ByEnqueue(s: State, t: State, queue: string, task: Task, availableAt: int)
    requires Reachable(s) && EnqueueStep(s, t, queue, task, availableAt)
    ensures Reachable(t)
  {
    ReachNext(s, t, EnqueuePlain(queue, task, availableAt));
  }

  lemma ByReserve(s: State, t: State, w: WorkerId, queue: string, now: int, before: int)
    requires Reachable(s) && ReserveStep(s, t, w, queue, now, before)
    ensures Reachable(t)
  {
    ReachNext(s, t, ReserveJob(w, queue, now, before));
  }

  lemma ByStore(s: State, t: State, w: WorkerId, parts: seq<seq<Row>>)
    requires Reachable(s) && StoreStep(s, t, w, parts)
    ensures Reachable(t)
  {
    ReachNext(s, t, StoreFetched(w, parts));
  }

  lemma ByBatch(s: State, t: State, w: WorkerId, queue: string, now: int)
    requires Reachable(s) && BatchStep(s, t, w, queue, now)
    ensures Reachable(t)
  {
    ReachNext(s, t, EnqueueChunks(w, queue, now));
  }

  lemma ByMarkProcessing(s: State, t: State, w: WorkerId)
    requires Reachable(s) && MarkProcessingStep(s, t, w)
    ensures Reachable(t)
  {
    ReachNext(s, t, SetPage(w));
  }

  lemma ByDelete(s: State, t: State, w: WorkerId)
    requires Reachable(s) && DeleteStep(s, t, w)
    ensures Reachable(t)
  {
    ReachNext(s, t, DeleteReserved(w));
  }

  lemma ByMove(s: State, t: State, w: WorkerId, to: Pc)
    requires Reachable(s) && MoveStep(s, t, w, to)
    ensures Reachable(t)
  {
    ReachNext(s, t, Move(w, to));
  }

  lemma ByWrite(s: State, t: State, w: WorkerId, sub: set<nat>, mirror: Table)
    requires Reachable(s) && WriteStep(s, t, w, sub, mirror)
    ensures Reachable(t)
  {
    ReachNext(s, t, WriteRows(w, sub, mirror));
  }

  lemma ByCount(s: State, t: State, w: WorkerId)
    requires Reachable(s) && CountedStep(s, t, w)
    ensures Reachable(t)
  {
    ReachNext(s, t, CountDownBatch(w));
  }

  lemma ByFinish(s: State, t: State, w: WorkerId, now: int)
    requires Reachable(s) && FinishStep(s, t, w, now)
    ensures Reachable(t)
  {
    ReachNext(s, t, FinishBatch(w, now));
  }

  lemma ByAnnounce(s: State, t: State, w: WorkerId, now: int)
    requires Reachable(s) && AnnounceStep(s, t, w, now)
    ensures Reachable(t)
  {
    ReachNext(s, t, AnnounceBatch(w, now));
  }

  lemma CandidateIs(t: Tables<Task>, now: int, before: int, id: JobId)
    requires Eligible(Reclaim(t, now, before), [Q], now, id) && id < t.nextJob
    requires forall j :: 0 <= j < id ==> !Eligible(Reclaim(t, now, before), [Q], now, j)
    ensures Candidate(t, [Q], now, before) == Some(id)
  {
    assert Reclaim(t, now, before).nextJob == t.nextJob;
  }

  // ---- The states of the race --------------------------------------------------------------------

  function FetchJob(attempts: nat, reservedAt: Option<int>): Job<Task> {
    Job(Q, FetchPage, None, attempts, reservedAt, 0)
  }

  function ChunkJob(index: nat, attempts: nat, reservedAt: Option<int>, availableAt: int): Job<Task> {
    Job(Q, PersistChunk(0, index), Some(0), attempts, reservedAt, availableAt)
  }

  function TwoChunks(pending: nat, finishedAt: Option<int>): Batch<Task> {
    Batch(2, pending, Some(Callback(Q, PersistFinalize(Some(0)))), finishedAt)
  }

  function Queue(jobs: map<JobId, Job<Task>>, pending: nat): Tables<Task> {
    Tables(jobs, 3, [], map[0 := TwoChunks(pending, None)], 1)
  }

  datatype Stage = Stage(first: Row, second: Row, before: Table, mirror: Table)

  /** The two chunk jobs, the first with the given fate. */
  function Fates(fate: Fate): map<JobId, Child> { map[1 := Child(0, 0, 1, fate), 2 := Child(0, 0, 2, Live)] }

  /** After the batch is enqueued: the tables, both workers, the fates, the rows written. */
  function Late(g: Stage, t: Tables<Task>, mirror: Table, v: Pc, w: Pc, fate: Fate, written: set<nat>): State {
    State(t, map[0 := Page(Parts(g.first, g.second), Processing, Some(0))], 1, mirror, map[0 := v, 1 := w],
      Fates(fate), map[0 := Snapshot(Parts(g.first, g.second), g.before, written)], map[])
  }

  function Early(g: Stage, t: Tables<Task>, v: Pc): State {
    State(t, map[], 0, g.before, map[0 := v, 1 := Idle], map[], map[], map[])
  }

  /** The slow worker's reservation, and the one that takes it over. */
  function Slow(): Reserved<Task> { Reserved(1, ChunkJob(1, 1, Some(0), 0)) }
  function Second(): Reserved<Task> { Reserved(1, ChunkJob(1, 2, Some(10), 10)) }

  function ChunksQueued(): Tables<Task> { Queue(map[1 := ChunkJob(1, 0, None, 0), 2 := ChunkJob(2, 0, None, 0)], 2) }
  function SlowReserved(): Tables<Task> { Queue(map[1 := Slow().job, 2 := ChunkJob(2, 0, None, 0)], 2) }
  function TakenOver(): Tables<Task> { Queue(map[1 := Second().job, 2 := ChunkJob(2, 0, None, 0)], 2) }
  function Deleted(pending: nat): Tables<Task> { Queue(map[2 := ChunkJob(2, 0, None, 0)], pending) }

  // ---- A page is fetched and its batch enqueued ---------------------------------------------------

  function FetchQueued(): Tables<Task> { Tables(map[0 := FetchJob(0, None)], 1, [], map[], 0) }
  function FetchReserved(): Tables<Task> { Tables(map[0 := FetchJob(1, Some(0))], 1, [], map[], 0) }
  function Fetcher(): Reserved<Task> { Reserved(0, FetchJob(1, Some(0))) }

  lemma WorkersSpawned(g: Stage)
    ensures Reachable(Early(g, FetchQueued(), Idle))
  {
    var s0 := Start(g.before);
    var s1 := Go(s0, 0, Idle);
    var s2 := Go(s1, 1, Idle);
    ReachStart(g.before);
    BySpawn(s0, s1, 0);
    BySpawn(s1, s2, 1);
    var s3 := s2.(tables := Insert(s2.tables, Q, FetchPage, None, 0));
    ByEnqueue(s2, s3, Q, FetchPage, 0);
    assert s3.tables.jobs == FetchQueued().jobs;
    assert s3 == Early(g, FetchQueued(), Idle);
  }

  lemma FetchTaken()
    ensures Candidate(FetchQueued(), [Q], 0, 0) == Some(0) && Reserve(FetchQueued(), 0, 0, 0) == FetchReserved()
  {
    CandidateIs(FetchQueued(), 0, 0, 0);
    assert Reserve(FetchQueued(), 0, 0, 0).jobs == FetchReserved().jobs;
  }

  lemma FetchHeld(g: Stage)
    ensures Reachable(Early(g, FetchReserved(), Holding(Fetcher())))
  {
    var s, t := Early(g, FetchQueued(), Idle), Early(g, FetchReserved(), Holding(Fetcher()));
    WorkersSpawned(g);
    FetchTaken();
    assert t.workers == s.workers[0 := Holding(Fetcher())];
    ByReserve(s, t, 0, Q, 0, 0);
  }

  function AfterStore(g: Stage): State {
    State(FetchReserved(), map[0 := Page(Parts(g.first, g.second), Pending, None)], 1, g.before,
      map[0 := Stored(Fetcher(), 0, 2), 1 := Idle], map[],
      map[0 := Snapshot(Parts(g.first, g.second), g.before, {})], map[])
  }

  lemma PageStored(g: Stage)
    ensures Reachable(AfterStore(g))
  {
    var s, t := Early(g, FetchReserved(), Holding(Fetcher())), AfterStore(g);
    FetchHeld(g);
    assert t.workers == s.workers[0 := Stored(Fetcher(), 0, 2)];
    assert t.pages == s.pages[0 := Page(Parts(g.first, g.second), Pending, None)];
    ByStore(s, t, 0, Parts(g.first, g.second));
  }

  function AllQueued(): Tables<Task> {
    Queue(map[0 := FetchJob(1, Some(0)), 1 := ChunkJob(1, 0, None, 0), 2 := ChunkJob(2, 0, None, 0)], 2)
  }

  function AfterEnqueue(g: Stage): State {
    Late(g, AllQueued(), g.before, Batched(Fetcher(), 0, 0), Idle, Live, {}).(
      pages := map[0 := Page(Parts(g.first, g.second), Pending, None)])
  }

  lemma TwoTasks()
    ensures var tasks := ChunkTasks(0, 2);
      tasks == [PersistChunk(0, 1), PersistChunk(0, 2)] && tasks[..1] == [PersistChunk(0, 1)]
  {
  }

  lemma TwoInserted()
    ensures BatchInserted(FetchReserved(), 0, 2, Q, 0) == AllQueued()
  {
    var b := FetchReserved().(batches := map[0 := TwoChunks(2, None)], nextBatch := 1);
    var tasks := ChunkTasks(0, 2);
    TwoTasks();
    var one := Insert(b, Q, tasks[0], Some(0), 0);
    assert tasks[..1][..0] == [];
    assert InsertAll(b, Q, tasks[..1], 0, 0) == one;
    assert InsertAll(b, Q, tasks, 0, 0) == Insert(one, Q, tasks[1], Some(0), 0);
    assert FetchReserved().batches[0 := TwoChunks(2, None)] == b.batches;
    assert Insert(one, Q, tasks[1], Some(0), 0).jobs == AllQueued().jobs;
  }

  lemma BatchIsStep(g: Stage)
    ensures BatchStep(AfterStore(g), AfterEnqueue(g), 0, Q, 0)
  {
    var s, t := AfterStore(g), AfterEnqueue(g);
    TwoInserted();
    assert s.children + NewChildren(1, 2, 0, 0) == t.children;
    assert t.workers == s.workers[0 := Batched(Fetcher(), 0, 0)];
  }

  lemma BatchEnqueued(g: Stage)
    ensures Reachable(AfterEnqueue(g))
  {
    PageStored(g);
    BatchIsStep(g);
    ByBatch(AfterStore(g), AfterEnqueue(g), 0, Q, 0);
  }

  function Dispatching(g: Stage): State { Late(g, AllQueued(), g.before, Succeeded(Fetcher()), Idle, Live, {}) }

  function Dispatched(g: Stage): State { Late(g, ChunksQueued(), g.before, Idle, Idle, Live, {}) }

  lemma FetchFinished(g: Stage)
    ensures Reachable(Dispatching(g))
  {
    var s, t := AfterEnqueue(g), Dispatching(g);
    BatchEnqueued(g);
    assert t.workers == s.workers[0 := Succeeded(Fetcher())];
    assert t.pages == WithStatus(s.pages, 0, Processing, Some(0));
    ByMarkProcessing(s, t, 0);
  }

  lemma FetchDeletedIsStep(g: Stage)
    ensures DeleteStep(Dispatching(g), Dispatched(g), 0)
  {
    var s, t := Dispatching(g), Dispatched(g);
    assert DeleteJob(AllQueued(), 0).jobs == ChunksQueued().jobs;
    assert t.workers == s.workers[0 := Idle];
  }

  lemma FetchDeleted(g: Stage)
    ensures Reachable(Dispatched(g))
  {
    FetchFinished(g);
    FetchDeletedIsStep(g);
    ByDelete(Dispatching(g), Dispatched(g), 0);
  }

  // ---- Two workers write the first chunk ---------------------------------------------------------

  function SlowHolds(g: Stage): State { Late(g, SlowReserved(), g.before, Holding(Slow()), Idle, Live, {}) }

  lemma SlowTaken()
    ensures Candidate(ChunksQueued(), [Q], 0, 0) == Some(1) && Reserve(ChunksQueued(), 1, 0, 0) == SlowReserved()
  {
    CandidateIs(ChunksQueued(), 0, 0, 1);
    assert Reserve(ChunksQueued(), 1, 0, 0).jobs == SlowReserved().jobs;
  }

  lemma SlowStarts(g: Stage)
    ensures Reachable(SlowHolds(g))
  {
    var s, t := Dispatched(g), SlowHolds(g);
    FetchDeleted(g);
    SlowTaken();
    assert t.workers == s.workers[0 := Holding(Slow())];
    ByReserve(s, t, 0, Q, 0, 0);
  }

  /** A worker that holds a chunk of one row, and the three steps of its turn: read, write, succeed. */
  ghost predicate HoldsRow(s: State, w: WorkerId, r: Reserved<Task>, row: Row, mirror: Table) {
    PcOf(s, w) == Holding(r) && ChunkOf(s, r.job.task) == Some([row]) && Commits(s.mirror, [row], {0}, {0}, mirror)
  }

  function Reading(s: State, w: WorkerId, r: Reserved<Task>, row: Row): State {
    Go(s, w, Writing(r, [row], {0}))
  }

  function Wrote(s: State, w: WorkerId, r: Reserved<Task>, row: Row, mirror: Table): State {
    Go(s, w, Writing(r, [row], {})).(mirror := mirror, stored := NoteWritten(s.stored, r.job.task, {0}))
  }

  function TurnOver(s: State, w: WorkerId, r: Reserved<Task>, mirror: Table): State {
    Go(s, w, Succeeded(r)).(mirror := mirror, stored := NoteWritten(s.stored, r.job.task, {0}))
  }

  lemma TurnReads(s: State, w: WorkerId, r: Reserved<Task>, row: Row, mirror: Table)
    requires HoldsRow(s, w, r, row, mirror)
    ensures MoveStep(s, Reading(s, w, r, row), w, Writing(r, [row], {0}))
  {
    assert Positions(1) == {0};
  }

  lemma TurnWrites(s: State, w: WorkerId, r: Reserved<Task>, row: Row, mirror: Table)
    requires HoldsRow(s, w, r, row, mirror)
    ensures WriteStep(Reading(s, w, r, row), Wrote(s, w, r, row, mirror), w, {0}, mirror)
  {
    var pc, no: set<nat> := PcOf(Reading(s, w, r, row), w), {};
    assert pc.todo - {0} == no;
    assert Reading(s, w, r, row).workers[w := pc.(todo := no)] == s.workers[w := pc.(todo := no)];
  }

  lemma TurnSucceeds(s: State, w: WorkerId, r: Reserved<Task>, row: Row, mirror: Table)
    requires HoldsRow(s, w, r, row, mirror)
    ensures MoveStep(Wrote(s, w, r, row, mirror), TurnOver(s, w, r, mirror), w, Succeeded(r))
  {
    assert Wrote(s, w, r, row, mirror).workers[w := Succeeded(r)] == s.workers[w := Succeeded(r)];
  }

  lemma TurnTaken(s: State, w: WorkerId, r: Reserved<Task>, row: Row, mirror: Table)
    requires Reachable(s) && HoldsRow(s, w, r, row, mirror)
    ensures Reachable(TurnOver(s, w, r, mirror))
  {
    TurnReads(s, w, r, row, mirror);
    TurnWrites(s, w, r, row, mirror);
    TurnSucceeds(s, w, r, row, mirror);
    ByMove(s, Reading(s, w, r, row), w, Writing(r, [row], {0}));
    ByWrite(Reading(s, w, r, row), Wrote(s, w, r, row, mirror), w, {0}, mirror);
    ByMove(Wrote(s, w, r, row, mirror), TurnOver(s, w, r, mirror), w, Succeeded(r));
  }

  lemma FirstChunkNoted(g: Stage, written: set<nat>, task: Task)
    requires written <= {0} && task == PersistChunk(0, 1)
    ensures NoteWritten(map[0 := Snapshot(Parts(g.first, g.second), g.before, written)], task, {0}) ==
            map[0 := Snapshot(Parts(g.first, g.second), g.before, {0})]
  {
    assert Parts(g.first, g.second)[..0] == [];
    assert 0 in Shift({0}, 0) by { assert 0 in {0} && 0 == 0 + 0; }
    assert Shift({0}, 0) == {0};
    assert written + {0} == {0};
  }

  function SlowDone(g: Stage): State { Late(g, SlowReserved(), g.mirror, Succeeded(Slow()), Idle, Live, {0}) }

  lemma SlowHoldsRow(g: Stage)
    requires Commits(g.before, [g.first], {0}, {0}, g.mirror)
    ensures HoldsRow(SlowHolds(g), 0, Slow(), g.first, g.mirror)
    ensures TurnOver(SlowHolds(g), 0, Slow(), g.mirror) == SlowDone(g)
  {
    hide Commits;
    FirstChunkNoted(g, {}, Slow().job.task);
    assert SlowHolds(g).workers[0 := Succeeded(Slow())] == SlowDone(g).workers;
  }

  lemma SlowTurn(g: Stage)
    requires Commits(g.before, [g.first], {0}, {0}, g.mirror)
    ensures Reachable(SlowDone(g))
  {
    SlowStarts(g);
    SlowHoldsRow(g);
    TurnTaken(SlowHolds(g), 0, Slow(), g.first, g.mirror);
  }

  function SecondHolds(g: Stage): State {
    Late(g, TakenOver(), g.mirror, Succeeded(Slow()), Holding(Second()), Live, {0})
  }

  lemma ChunkTakenOver()
    ensures Candidate(SlowReserved(), [Q], 10, 5) == Some(1) && Reserve(SlowReserved(), 1, 10, 5) == TakenOver()
  {
    CandidateIs(SlowReserved(), 10, 5, 1);
    assert Reserve(SlowReserved(), 1, 10, 5).jobs == TakenOver().jobs;
  }

  /** The reservation of time 0 is stale at time 10, although its worker is alive. */
  lemma SecondStarts(g: Stage)
    requires Commits(g.before, [g.first], {0}, {0}, g.mirror)
    ensures Reachable(SecondHolds(g)) && !FailStop(SlowDone(g), ReserveJob(1, Q, 10, 5))
  {
    var s, t := SlowDone(g), SecondHolds(g);
    SlowTurn(g);
    ChunkTakenOver();
    assert t.workers == s.workers[1 := Holding(Second())];
    ByReserve(s, t, 1, Q, 10, 5);
    assert Stale(s.tables.jobs[1], 5) && Held(PcOf(s, 0)) == Some(Slow());
  }

  lemma SecondHoldsRow(g: Stage)
    requires Commits(g.mirror, [g.first], {0}, {0}, g.mirror)
    ensures HoldsRow(SecondHolds(g), 1, Second(), g.first, g.mirror)
    ensures TurnOver(SecondHolds(g), 1, Second(), g.mirror) == BothDone(g)
  {
    hide Commits;
    FirstChunkNoted(g, {0}, Second().job.task);
    assert SecondHolds(g).workers[1 := Succeeded(Second())] == BothDone(g).workers;
  }

  lemma SecondTurn(g: Stage)
    requires Commits(g.before, [g.first], {0}, {0}, g.mirror) && Commits(g.mirror, [g.first], {0}, {0}, g.mirror)
    ensures Reachable(BothDone(g))
  {
    SecondStarts(g);
    SecondHoldsRow(g);
    TurnTaken(SecondHolds(g), 1, Second(), g.first, g.mirror);
  }

  // ---- Both count it down ------------------------------------------------------------------------

  function BothDone(g: Stage): State {
    Late(g, TakenOver(), g.mirror, Succeeded(Slow()), Succeeded(Second()), Live, {0})
  }
  function SlowCounts(g: Stage): State {
    Late(g, Deleted(2), g.mirror, Counting(1, 0, Q), Succeeded(Second()), Uncounted, {0})
  }
  function SlowCounted(g: Stage): State { Late(g, Deleted(1), g.mirror, Idle, Succeeded(Second()), Counted, {0}) }
  function SecondCounts(g: Stage): State { Late(g, Deleted(1), g.mirror, Idle, Counting(1, 0, Q), Counted, {0}) }
  function Empty(g: Stage): State { Late(g, Deleted(0), g.mirror, Idle, Announcing(0, Q, false), Counted, {0}) }

  function Finished(): Tables<Task> {
    Deleted(0).(batches := map[0 := TwoChunks(0, Some(20))])
  }

  function Marked(g: Stage): State { Late(g, Finished(), g.mirror, Idle, Announcing(0, Q, true), Counted, {0}) }

  function Over(g: Stage): State {
    var t := Insert(Finished(), Q, PersistFinalize(Some(0)), None, 20);
    Late(g, t, g.mirror, Idle, Idle, Counted, {0}).(announced := map[0 := 1])
  }

  lemma TablesCounted()
    ensures DeleteJob(TakenOver(), 1) == Deleted(2) && DeleteJob(Deleted(1), 1) == Deleted(1)
    ensures CountDown(Deleted(2), 0) == Deleted(1) && CountDown(Deleted(1), 0) == Deleted(0)
    ensures MarkFinished(Deleted(0), 0, 20) == Finished()
  {
    assert DeleteJob(TakenOver(), 1).jobs == Deleted(2).jobs;
    assert CountDown(Deleted(2), 0).batches == Deleted(1).batches;
    assert CountDown(Deleted(1), 0).batches == Deleted(0).batches;
  }

  lemma FateSet(a: Fate, b: Fate)
    ensures SetFate(Fates(a), 1, b) == Fates(b)
  {
  }

  lemma FirstMoves(v: Pc, w: Pc, q: Pc)
    ensures map[0 := v, 1 := w][0 := q] == map[0 := q, 1 := w]
  {
  }

  lemma SlowDeletesIsStep(g: Stage)
    ensures DeleteStep(BothDone(g), SlowCounts(g), 0)
  {
    var s, t := BothDone(g), SlowCounts(g);
    TablesCounted();
    FirstMoves(PcOf(s, 0), PcOf(s, 1), Counting(1, 0, Q));
    FateSet(Live, Uncounted);
    hide SetFate, DeleteJob, Parts;
  }

  lemma SlowDeletes(g: Stage)
    requires Reachable(BothDone(g))
    ensures Reachable(SlowCounts(g))
  {
    SlowDeletesIsStep(g);
    ByDelete(BothDone(g), SlowCounts(g), 0);
  }

  lemma SlowCountsDownIsStep(g: Stage)
    ensures CountedStep(SlowCounts(g), SlowCounted(g), 0)
  {
    var s, t := SlowCounts(g), SlowCounted(g);
    TablesCounted();
    FirstMoves(PcOf(s, 0), PcOf(s, 1), Idle);
    FateSet(Uncounted, Counted);
    hide SetFate, CountDown, Parts;
  }

  lemma SlowCountsDown(g: Stage)
    requires Reachable(SlowCounts(g))
    ensures Reachable(SlowCounted(g))
  {
    SlowCountsDownIsStep(g);
    ByCount(SlowCounts(g), SlowCounted(g), 0);
  }

  lemma SecondDeletesIsStep(g: Stage)
    ensures DeleteStep(SlowCounted(g), SecondCounts(g), 1)
  {
    var s, t := SlowCounted(g), SecondCounts(g);
    TablesCounted();
    assert t.workers == s.workers[1 := Counting(1, 0, Q)];
  }

  lemma SecondDeletes(g: Stage)
    requires Reachable(SlowCounted(g))
    ensures Reachable(SecondCounts(g))
  {
    SecondDeletesIsStep(g);
    ByDelete(SlowCounted(g), SecondCounts(g), 1);
  }

  lemma SecondCountsDownIsStep(g: Stage)
    ensures CountedStep(SecondCounts(g), Empty(g), 1)
  {
    var s, t := SecondCounts(g), Empty(g);
    TablesCounted();
    assert t.workers == s.workers[1 := Announcing(0, Q, false)];
    assert SetFate(s.children, 1, Counted) == t.children;
  }

  lemma SecondCountsDown(g: Stage)
    requires Reachable(SecondCounts(g))
    ensures Reachable(Empty(g))
  {
    SecondCountsDownIsStep(g);
    ByCount(SecondCounts(g), Empty(g), 1);
  }

  lemma SecondFinishes(g: Stage)
    requires Reachable(Empty(g))
    ensures Reachable(Marked(g))
  {
    var s, t := Empty(g), Marked(g);
    TablesCounted();
    assert t.workers == s.workers[1 := Announcing(0, Q, true)];
    ByFinish(s, t, 1, 20);
  }

  lemma SecondAnnouncesIsStep(g: Stage)
    ensures AnnounceStep(Marked(g), Over(g), 1, 20)
  {
    var s, t := Marked(g), Over(g);
    assert t.workers == s.workers[1 := Idle];
    assert t.announced == s.announced[0 := 1];
  }

  lemma SecondAnnounces(g: Stage)
    requires Reachable(Marked(g))
    ensures Reachable(Over(g))
  {
    SecondAnnouncesIsStep(g);
    ByAnnounce(Marked(g), Over(g), 1, 20);
  }

  lemma CountedTwice(g: Stage)
    requires Reachable(BothDone(g))
    ensures Reachable(Over(g))
  {
    SlowDeletes(g);
    SlowCountsDown(g);
    SecondDeletes(g);
    SecondCountsDown(g);
    SecondFinishes(g);
    SecondAnnounces(g);
  }

  // ---- The whole run -----------------------------------------------------------------------------

  /** The transaction that writes one row. */
  function CommitOf(row: Row): Commit
    requires Writes(row)
  {
    if row.Remove? then Commit.Deleted({row.key}) else Flushed([row.record], [0])
  }

  lemma CommitOfRow(u: Table, row: Row)
    requires Writes(row)
    ensures Describes([row], CommitOf(row)) && PositionsOf([row], CommitOf(row)) == {0}
    ensures KeepsOrder([row], {0}, CommitOf(row))
    ensures After(CommitOf(row), u) == ApplyRows(u, [row])
  {
    var c := CommitOf(row);
    assert Positions(1) == {0};
    assert [row][0] == row;
    assert c.Flushed? ==> 0 in c.at;
    ApplyRowsWritten(u, [row]);
    CommitIsWrite([row], c, u);
    WrittenUnique(u, [row], {0}, After(c, u), ApplyRows(u, [row]));
  }

  lemma RowCommits(u: Table, row: Row)
    ensures Commits(u, [row], {0}, {0}, ApplyRows(u, [row]))
  {
    if Writes(row) {
      CommitOfRow(u, row);
    } else {
      assert [row][..0] == [];
    }
  }

  lemma SameRowTwice(u: Table, row: Row)
    ensures ApplyRows(ApplyRows(u, [row]), [row]) == ApplyRows(u, [row])
  {
    var v := ApplyRows(u, [row]);
    var rows := [row];
    assert rows[..0] == [] && ApplyRows(u, rows) == ApplyRow(ApplyRows(u, rows[..0]), rows[0]);
    assert ApplyRows(v, rows) == ApplyRow(ApplyRows(v, rows[..0]), rows[0]);
    if Writes(row) {
      RowResultIdempotent(row, Get(u, RowKey(row)));
      SameLookups(ApplyRow(v, row), v);
    }
  }

  /** Without fail-stop, finalize can overtake a chunk: whatever the page's two rows, there is a run after
      which its completion job is enqueued although its second chunk was never written. */
  lemma FinalizeOvertakesChunk(mirror: Table, first: Row, second: Row) returns (states: seq<State>, steps: seq<Step>)
    ensures Run(states, steps) && Last(states).stored == map[0 := Snapshot([[first], [second]], mirror, {0})]
    ensures Announcements(Last(states), 0) == 1 && FinalizedPage(Last(states), 0) == Some(0)
    ensures !ChunkDone(Last(states).stored, 0, 2)
  {
    hide Commits, ApplyRows, ChunkDone;
    var g := Stage(first, second, mirror, ApplyRows(mirror, [first]));
    RowCommits(mirror, first);
    RowCommits(g.mirror, first);
    SameRowTwice(mirror, first);
    SecondTurn(g);
    CountedTwice(g);
    states, steps :| Run(states, steps) && Last(states) == Over(g);
    SecondChunkUnwritten(g);
  }

  lemma SecondChunkUnwritten(g: Stage)
    ensures !ChunkDone(Over(g).stored, 0, 2)
  {
    var parts := Parts(g.first, g.second);
    assert parts[..1] == [[g.first]] && parts[..1][..0] == [];
    assert Flatten(parts[..1]) == [g.first];
    assert 1 in ChunkPositions(parts, 1);
  }
}
