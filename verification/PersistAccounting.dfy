/** Batch accounting in fail-stop runs: what pending_jobs counts (internal/queue/queue.go,
    internal/queue/worker.go). */
module PersistAccounting {
  import opened Wrappers
  import opened JobTables
  import opened PersistProtocol

  // ---- The invariant -----------------------------------------------------------------------------

  /** The chunk jobs of batch b that have not been counted down. */
  function Owed(children: map<JobId, Child>, b: BatchId): set<JobId> {
    set id | id in children && children[id].batch == b && children[id].fate != Counted
  }

  ghost predicate ChildJob(job: Job<Task>, c: Child) {
    job.batch == Some(c.batch) && job.task == PersistChunk(c.page, c.index)
  }

  /** The jobs with a batch are exactly the chunk jobs that are still live. */
  ghost predicate JobsMatch(t: Tables<Task>, children: map<JobId, Child>) {
    && t.Valid()
    && (forall id :: id in children ==> id < t.nextJob && children[id].batch in t.batches)
    && (forall id :: id in children ==> (id in t.jobs <==> children[id].fate == Live))
    && (forall id :: id in children && id in t.jobs ==> ChildJob(t.jobs[id], children[id]))
    && (forall id :: id in t.jobs && id !in children ==> t.jobs[id].batch.None? && !t.jobs[id].task.PersistChunk?)
  }

  /** The chunk jobs have ids that were given out. */
  ghost predicate IdsIssued(t: Tables<Task>, children: map<JobId, Child>) {
    forall id :: id in children ==> id < t.nextJob
  }

  ghost predicate Holds(t: Tables<Task>, r: Reserved<Task>) {
    r.id in t.jobs && t.jobs[r.id].reservedAt.Some? && t.jobs[r.id].task == r.job.task &&
      t.jobs[r.id].batch == r.job.batch
  }

  ghost predicate HoldersMatch(s: State) {
    && (forall w :: Held(PcOf(s, w)).Some? ==> Holds(s.tables, Held(PcOf(s, w)).value))
    && (forall v, w :: v != w && Held(PcOf(s, v)).Some? && Held(PcOf(s, w)).Some? ==>
          Held(PcOf(s, v)).value.id != Held(PcOf(s, w)).value.id)
  }

  ghost predicate Counts(children: map<JobId, Child>, p: Pc) {
    p.Counting? ==> p.id in children && children[p.id].batch == p.batch && children[p.id].fate == Uncounted
  }

  ghost predicate CountersMatch(s: State) {
    && (forall w :: Counts(s.children, PcOf(s, w)))
    && (forall v, w :: v != w && PcOf(s, v).Counting? && PcOf(s, w).Counting? ==> PcOf(s, v).id != PcOf(s, w).id)
  }

  ghost predicate Balanced(t: Tables<Task>, children: map<JobId, Child>) {
    forall b :: b in t.batches ==> t.batches[b].pending == |Owed(children, b)|
  }

  ghost predicate FailureRecorded(failed: seq<Failure<Task>>, c: Child) {
    exists q :: Failure(q, PersistChunk(c.page, c.index), Some(c.batch)) in failed
  }

  /** A chunk that left the queue without success is in failed_jobs. */
  ghost predicate FailuresMatch(s: State) {
    && (forall id :: id in s.children && s.children[id].fate == FailedOut ==>
       FailureRecorded(s.tables.failed, s.children[id]))
    && (forall w :: PcOf(s, w).Recorded? ==>
          var job := PcOf(s, w).r.job; Failure(job.queue, job.task, job.batch) in s.tables.failed)
  }

  ghost predicate Accounted(s: State) {
    JobsMatch(s.tables, s.children) && HoldersMatch(s) && CountersMatch(s) && Balanced(s.tables, s.children) &&
      FailuresMatch(s)
  }

  // ---- Frames ------------------------------------------------------------------------------------

  /** The other workers' jobs are untouched and the acting worker keeps its job or gives it up. */
  lemma HoldersKept(s: State, t: State, w: WorkerId)
    requires HoldersMatch(s)
    requires forall v: WorkerId :: v != w ==> PcOf(t, v) == PcOf(s, v)
    requires forall v: WorkerId :: v != w && Held(PcOf(s, v)).Some? ==> Holds(t.tables, Held(PcOf(s, v)).value)
    requires Held(PcOf(t, w)).Some? ==> Held(PcOf(t, w)) == Held(PcOf(s, w)) && Holds(t.tables, Held(PcOf(t, w)).value)
    ensures HoldersMatch(t)
  {
  }

  lemma CountersKept(s: State, t: State, w: WorkerId)
    requires CountersMatch(s)
    requires forall v: WorkerId :: v != w ==> PcOf(t, v) == PcOf(s, v)
    requires forall v: WorkerId :: v != w ==> Counts(t.children, PcOf(s, v))
    requires PcOf(t, w).Counting? ==> PcOf(t, w) == PcOf(s, w) && Counts(t.children, PcOf(t, w))
    ensures CountersMatch(t)
  {
  }

  /** The worker takes on no new job and no new count. */
  ghost predicate Quiet(p: Pc, q: Pc) {
    (Held(q).Some? ==> Held(q) == Held(p)) && (q.Counting? || q.Recorded? ==> q == p)
  }

  /** A step that changes at most one worker, the page table and the mirror. */
  lemma QuietKeepsAccounting(s: State, t: State, w: WorkerId)
    requires Accounted(s) && t.tables == s.tables && t.children == s.children
    requires forall v: WorkerId :: v != w ==> PcOf(t, v) == PcOf(s, v)
    requires Quiet(PcOf(s, w), PcOf(t, w))
    ensures Accounted(t)
  {
    HoldersKept(s, t, w);
    CountersKept(s, t, w);
  }

  // ---- Step by step ------------------------------------------------------------------------------

  lemma InsertKeepsJobs(t: Tables<Task>, children: map<JobId, Child>, queue: string, task: Task, availableAt: int)
    requires JobsMatch(t, children) && !task.PersistChunk?
    ensures JobsMatch(Insert(t, queue, task, None, availableAt), children)
  {
  }

  /** Jobs may be added, and the tables' other parts stay. */
  ghost predicate JobsAdded(t: Tables<Task>, u: Tables<Task>) {
    (forall id :: id in t.jobs ==> id in u.jobs && u.jobs[id] == t.jobs[id]) && u.failed == t.failed &&
      u.batches == t.batches
  }

  lemma InsertAdds(t: Tables<Task>, queue: string, task: Task, availableAt: int)
    requires t.Valid()
    ensures JobsAdded(t, Insert(t, queue, task, None, availableAt))
  {
  }

  /** The worker stays or becomes idle while jobs are added. */
  lemma AddedKeepsWorkers(s: State, t: State, w: WorkerId)
    requires Accounted(s) && JobsAdded(s.tables, t.tables) && t.children == s.children && OnlyMoves(s, t, w)
    requires PcOf(t, w) == PcOf(s, w) || PcOf(t, w) == Idle
    ensures HoldersMatch(t) && CountersMatch(t) && FailuresMatch(t) && Balanced(t.tables, t.children)
  {
    assert forall r :: Holds(s.tables, r) ==> Holds(t.tables, r);
    HoldersKept(s, t, w);
    CountersKept(s, t, w);
  }

  lemma InsertKeepsAccounting(s: State, t: State, queue: string, task: Task, availableAt: int, w: WorkerId)
    requires Accounted(s) && !task.PersistChunk?
    requires t.tables == Insert(s.tables, queue, task, None, availableAt) && t.children == s.children
    requires OnlyMoves(s, t, w)
    requires PcOf(t, w) == PcOf(s, w) || PcOf(t, w) == Idle
    ensures Accounted(t)
  {
    InsertKeepsJobs(s.tables, s.children, queue, task, availableAt);
    InsertAdds(s.tables, queue, task, availableAt);
    AddedKeepsWorkers(s, t, w);
  }

  /** The reserved job is nobody's: it was not reserved, or its reservation was stale. */
  lemma ReserveIsFree(s: State, t: State, w: WorkerId, queue: string, now: int, before: int)
    requires HoldersMatch(s) && ReserveStep(s, t, w, queue, now, before)
    requires FailStop(s, ReserveJob(w, queue, now, before))
    ensures var r := PcOf(t, w).r;
      && Holds(t.tables, r)
      && forall v: WorkerId :: Held(PcOf(s, v)).Some? ==>
         Held(PcOf(s, v)).value.id != r.id && Holds(t.tables, Held(PcOf(s, v)).value)
  {
    var id := Candidate(s.tables, [queue], now, before).value;
    assert Eligible(Reclaim(s.tables, now, before), [queue], now, id);
    assert forall id :: id in s.tables.jobs && Stale(s.tables.jobs[id], before) ==>
      forall v: WorkerId :: Held(PcOf(s, v)).Some? ==> Held(PcOf(s, v)).value.id != id;
  }

  /** Reserving and releasing change when a job is available, not what it is. */
  ghost predicate SameWork(t: Tables<Task>, u: Tables<Task>) {
    && u.jobs.Keys == t.jobs.Keys && u.nextJob == t.nextJob && u.failed == t.failed
    && u.batches == t.batches && u.nextBatch == t.nextBatch
    && forall id :: id in t.jobs ==> u.jobs[id].task == t.jobs[id].task && u.jobs[id].batch == t.jobs[id].batch
  }

  lemma ReserveSameWork(t: Tables<Task>, id: JobId, now: int, before: int)
    requires id in t.jobs
    ensures SameWork(t, Reserve(t, id, now, before))
  {
    var u := Reserve(t, id, now, before);
    assert forall j :: j in u.jobs <==> j in t.jobs;
  }

  lemma ReleaseSameWork(t: Tables<Task>, id: JobId, availableAt: int)
    ensures SameWork(t, ReleaseJob(t, id, availableAt))
  {
  }

  lemma SameWorkKeepsJobs(t: Tables<Task>, u: Tables<Task>, children: map<JobId, Child>)
    requires JobsMatch(t, children) && SameWork(t, u)
    ensures JobsMatch(u, children)
  {
  }

  lemma ReserveKeepsJobs(s: State, t: State, w: WorkerId, queue: string, now: int, before: int)
    requires JobsMatch(s.tables, s.children) && ReserveStep(s, t, w, queue, now, before)
    ensures JobsMatch(t.tables, t.children) && SameWork(s.tables, t.tables) && t.children == s.children
  {
    var id := Candidate(s.tables, [queue], now, before).value;
    assert id in Reclaim(s.tables, now, before).jobs;
    ReserveSameWork(s.tables, id, now, before);
    SameWorkKeepsJobs(s.tables, t.tables, s.children);
  }

  lemma ReserveKeepsHolders(s: State, t: State, w: WorkerId, queue: string, now: int, before: int)
    requires HoldersMatch(s) && ReserveStep(s, t, w, queue, now, before)
    requires FailStop(s, ReserveJob(w, queue, now, before))
    ensures HoldersMatch(t) && OnlyMoves(s, t, w) && PcOf(t, w).Holding?
  {
    assert OnlyMoves(s, t, w);
    ReserveIsFree(s, t, w, queue, now, before);
  }

  lemma ReserveKeepsAccounting(s: State, t: State, w: WorkerId, queue: string, now: int, before: int)
    requires Accounted(s) && ReserveStep(s, t, w, queue, now, before)
    requires FailStop(s, ReserveJob(w, queue, now, before))
    ensures Accounted(t)
  {
    ReserveKeepsHolders(s, t, w, queue, now, before);
    ReserveKeepsJobs(s, t, w, queue, now, before);
    CountersKept(s, t, w);
  }

  lemma ReleaseKeepsHolders(s: State, t: State, w: WorkerId, availableAt: int)
    requires HoldersMatch(s) && ReleaseStep(s, t, w, availableAt)
    ensures HoldersMatch(t) && OnlyMoves(s, t, w) && PcOf(t, w).Idle?
  {
    assert Held(PcOf(s, w)) == Some(PcOf(s, w).r);
    HoldersKept(s, t, w);
  }

  lemma ReleaseKeepsAccounting(s: State, t: State, w: WorkerId, availableAt: int)
    requires Accounted(s) && ReleaseStep(s, t, w, availableAt)
    ensures Accounted(t)
  {
    ReleaseKeepsHolders(s, t, w, availableAt);
    ReleaseSameWork(s.tables, PcOf(s, w).r.id, availableAt);
    SameWorkKeepsJobs(s.tables, t.tables, s.children);
    CountersKept(s, t, w);
  }

  lemma RecordKeepsAccounting(s: State, t: State, w: WorkerId)
    requires Accounted(s) && RecordStep(s, t, w)
    ensures Accounted(t)
  {
    assert forall c :: FailureRecorded(s.tables.failed, c) ==> FailureRecorded(t.tables.failed, c);
    HoldersKept(s, t, w);
    CountersKept(s, t, w);
  }

  lemma DeleteKeepsHolders(s: State, t: State, w: WorkerId)
    requires HoldersMatch(s) && DeleteStep(s, t, w)
    ensures HoldersMatch(t)
  {
    assert Held(PcOf(s, w)) == Some(PcOf(s, w).r);
    assert forall r :: Holds(s.tables, r) && r.id != PcOf(s, w).r.id ==> Holds(t.tables, r);
    HoldersKept(s, t, w);
  }

  /** The deleted chunk job was live, so nobody was counting it down; it is still owed. */
  lemma DeleteKeepsCounts(s: State, t: State, w: WorkerId)
    requires Accounted(s) && DeleteStep(s, t, w)
    ensures CountersMatch(t)
    ensures forall b :: Owed(t.children, b) == Owed(s.children, b)
  {
    var r := PcOf(s, w).r;
    assert Held(PcOf(s, w)) == Some(r);
    assert Holds(s.tables, r);
    assert forall v: WorkerId :: v != w ==> PcOf(t, v) == PcOf(s, v);
    forall v: WorkerId | v != w
      ensures Counts(t.children, PcOf(t, v)) && (PcOf(t, v).Counting? ==> PcOf(t, v).id != r.id)
    {
      assert Counts(s.children, PcOf(s, v));
    }
    assert Counts(t.children, PcOf(t, w));
    SetFateKeepsOwed(s.children, r.id, if PcOf(s, w).Succeeded? then Uncounted else FailedOut);
  }

  lemma SetFateKeepsOwed(children: map<JobId, Child>, id: JobId, fate: Fate)
    requires fate != Counted && (id in children ==> children[id].fate != Counted)
    ensures forall b :: Owed(SetFate(children, id, fate), b) == Owed(children, b)
  {
  }

  lemma DeleteKeepsAccounting(s: State, t: State, w: WorkerId)
    requires Accounted(s) && DeleteStep(s, t, w)
    ensures Accounted(t)
  {
    DeleteKeepsHolders(s, t, w);
    DeleteKeepsCounts(s, t, w);
    DeleteKeepsJobs(s, t, w);
    DeleteKeepsFailures(s, t, w);
    assert t.tables.batches == s.tables.batches;
  }

  lemma DeleteKeepsJobs(s: State, t: State, w: WorkerId)
    requires JobsMatch(s.tables, s.children) && DeleteStep(s, t, w)
    ensures JobsMatch(t.tables, t.children)
  {
    var r := PcOf(s, w).r;
    assert forall id :: id != r.id && id in t.children ==> t.children[id] == s.children[id];
  }

  lemma RecordedIsFailure(s: State, w: WorkerId)
    requires JobsMatch(s.tables, s.children) && HoldersMatch(s) && FailuresMatch(s) && PcOf(s, w).Recorded?
    requires PcOf(s, w).r.id in s.children
    ensures FailureRecorded(s.tables.failed, s.children[PcOf(s, w).r.id])
  {
    var r := PcOf(s, w).r;
    assert Held(PcOf(s, w)) == Some(r);
    assert Holds(s.tables, r);
    assert ChildJob(s.tables.jobs[r.id], s.children[r.id]);
  }

  lemma DeleteKeepsFailures(s: State, t: State, w: WorkerId)
    requires JobsMatch(s.tables, s.children) && HoldersMatch(s) && FailuresMatch(s) && DeleteStep(s, t, w)
    ensures FailuresMatch(t)
  {
    var r := PcOf(s, w).r;
    assert forall v: WorkerId :: v != w ==> PcOf(t, v) == PcOf(s, v);
    if PcOf(s, w).Recorded? && r.id in s.children { RecordedIsFailure(s, w); }
    assert forall id :: id != r.id && id in t.children ==> t.children[id] == s.children[id];
  }

  lemma OwedAfterCount(children: map<JobId, Child>, id: JobId, b: BatchId)
    requires id in children && children[id].fate == Uncounted && children[id].batch == b
    ensures Owed(children, b) == Owed(SetFate(children, id, Counted), b) + {id}
    ensures id !in Owed(SetFate(children, id, Counted), b)
    ensures forall c :: c != b ==> Owed(SetFate(children, id, Counted), c) == Owed(children, c)
  {
  }

  lemma CountedKeepsBalance(s: State, t: State, w: WorkerId)
    requires Balanced(s.tables, s.children) && Counts(s.children, PcOf(s, w)) && CountedStep(s, t, w)
    ensures Balanced(t.tables, t.children)
  {
    OwedAfterCount(s.children, PcOf(s, w).id, PcOf(s, w).batch);
  }

  lemma CountedKeepsCounters(s: State, t: State, w: WorkerId)
    requires CountersMatch(s) && CountedStep(s, t, w) && OnlyMoves(s, t, w)
    ensures CountersMatch(t)
  {
    forall v: WorkerId | v != w ensures Counts(t.children, PcOf(s, v)) {
      assert Counts(s.children, PcOf(s, v));
    }
    CountersKept(s, t, w);
  }

  lemma CountingKeepsJobs(t: Tables<Task>, children: map<JobId, Child>, id: JobId, b: BatchId)
    requires JobsMatch(t, children) && id in children && children[id].fate == Uncounted
    ensures JobsMatch(CountDown(t, b), SetFate(children, id, Counted))
  {
    assert CountDown(t, b).batches.Keys == t.batches.Keys;
  }

  lemma CountedKeepsFailures(s: State, t: State, w: WorkerId)
    requires FailuresMatch(s) && CountedStep(s, t, w) && OnlyMoves(s, t, w)
    ensures FailuresMatch(t)
  {
    assert forall id :: id in t.children && t.children[id].fate == FailedOut ==>
      id in s.children && t.children[id] == s.children[id];
  }

  lemma CountedKeepsHolders(s: State, t: State, w: WorkerId)
    requires HoldersMatch(s) && CountedStep(s, t, w) && OnlyMoves(s, t, w)
    ensures HoldersMatch(t)
  {
    HoldersKept(s, t, w);
  }

  lemma CountedKeepsAccounting(s: State, t: State, w: WorkerId)
    requires Accounted(s) && CountedStep(s, t, w)
    ensures Accounted(t)
  {
    assert Counts(s.children, PcOf(s, w));
    CountedMoves(s, t, w);
    CountedKeepsHolders(s, t, w);
    CountedKeepsCounters(s, t, w);
    CountedKeepsFailures(s, t, w);
    CountingKeepsJobs(s.tables, s.children, PcOf(s, w).id, PcOf(s, w).batch);
    CountedKeepsBalance(s, t, w);
  }

  lemma CountDownKeepsAccounting(s: State, t: State, w: WorkerId)
    requires Accounted(s) && CountDownStep(s, t, w)
    ensures Accounted(t)
  {
    if CountedStep(s, t, w) { CountedKeepsAccounting(s, t, w); } else { QuietKeepsAccounting(s, t, w); }
  }

  lemma MarkKeepsAccounting(s: State, t: State, w: WorkerId, now: int)
    requires Accounted(s) && FinishStep(s, t, w, now)
    ensures Accounted(t)
  {
    HoldersKept(s, t, w);
    CountersKept(s, t, w);
  }

  lemma NewChildrenOwed(children: map<JobId, Child>, first: JobId, n: nat, b: BatchId, page: PageId)
    requires forall id :: id in children ==> id < first && children[id].batch != b
    ensures |Owed(children + NewChildren(first, n, b, page), b)| == n
    ensures forall c :: c != b ==> Owed(children + NewChildren(first, n, b, page), c) == Owed(children, c)
  {
    var grown := children + NewChildren(first, n, b, page);
    assert forall id :: id in Owed(grown, b) <==> first <= id < first + n;
    Interval(Owed(grown, b), first, n);
  }

  lemma {:induction false} Interval(s: set<nat>, first: nat, n: nat)
    requires forall i :: i in s <==> first <= i < first + n
    ensures |s| == n
  {
    if n > 0 {
      Interval(s - {first + n - 1}, first, n - 1);
    } else {
      assert s == {};
    }
  }

  /** u is t with the n chunk jobs of a page added. */
  ghost predicate GrownBy(t: Tables<Task>, u: Tables<Task>, page: PageId, n: nat) {
    && u.Valid() && u.nextJob == t.nextJob + n
    && (forall id :: id in u.jobs <==> id in t.jobs || t.nextJob <= id < t.nextJob + n)
    && (forall id :: id in t.jobs ==> u.jobs[id] == t.jobs[id])
    && (forall id :: t.nextJob <= id < t.nextJob + n ==>
          ChildJob(u.jobs[id], Child(t.nextBatch, page, id - t.nextJob + 1, Live)))
    && (forall b :: b in t.batches || b == t.nextBatch ==> b in u.batches)
  }

  lemma BatchInsertedJobs(t: Tables<Task>, page: PageId, n: nat, queue: string, now: int)
    requires t.Valid()
    ensures GrownBy(t, BatchInserted(t, page, n, queue, now), page, n)
  {
    BatchInsertedFrame(t, page, n, queue, now);
    var b, cb := t.nextBatch, Some(Callback(queue, PersistFinalize(Some(page))));
    var v := t.(batches := t.batches[b := Batch(n, n, cb, None)], nextBatch := b + 1);
    InsertAllJobs(v, queue, ChunkTasks(page, n), b, now);
    NewJobsAreChunks(t, v, page, n, queue, now);
  }

  lemma NewJobsAreChunks(t: Tables<Task>, v: Tables<Task>, page: PageId, n: nat, queue: string, now: int)
    requires v.nextJob == t.nextJob && v.Valid()
    ensures forall id :: t.nextJob <= id < t.nextJob + n ==>
      && id in InsertAll(v, queue, ChunkTasks(page, n), t.nextBatch, now).jobs
      && ChildJob(InsertAll(v, queue, ChunkTasks(page, n), t.nextBatch, now).jobs[id],
         Child(t.nextBatch, page, id - t.nextJob + 1, Live))
  {
    var tasks := ChunkTasks(page, n);
    InsertAllJobs(v, queue, tasks, t.nextBatch, now);
    var u := InsertAll(v, queue, tasks, t.nextBatch, now);
    forall id | t.nextJob <= id < t.nextJob + n
      ensures ChildJob(u.jobs[id], Child(t.nextBatch, page, id - t.nextJob + 1, Live))
    {
      assert u.jobs[v.nextJob + (id - t.nextJob)] == Job(queue, tasks[id - t.nextJob], Some(t.nextBatch), 0, None, now);
    }
  }

  lemma GrownKeepsJobs(t: Tables<Task>, u: Tables<Task>, children: map<JobId, Child>, page: PageId, n: nat)
    requires JobsMatch(t, children) && GrownBy(t, u, page, n)
    ensures JobsMatch(u, children + NewChildren(t.nextJob, n, t.nextBatch, page))
  {
    var more := children + NewChildren(t.nextJob, n, t.nextBatch, page);
    assert forall id :: id in more <==> id in children || t.nextJob <= id < t.nextJob + n;
    forall id | id in more
      ensures id < u.nextJob && more[id].batch in u.batches
      ensures id in u.jobs <==> more[id].fate == Live
      ensures id in u.jobs ==> ChildJob(u.jobs[id], more[id])
    {
      assert id < t.nextJob ==> more[id] == children[id];
    }
  }

  lemma BatchKeepsBalance(s: State, t: State, w: WorkerId, queue: string, now: int)
    requires JobsMatch(s.tables, s.children) && Balanced(s.tables, s.children) && BatchStep(s, t, w, queue, now)
    ensures Balanced(t.tables, t.children)
  {
    var p, b := PcOf(s, w), s.tables.nextBatch;
    BatchInsertedFrame(s.tables, p.page, p.chunks, queue, now);
    NewChildrenOwed(s.children, s.tables.nextJob, p.chunks, b, p.page);
  }

  lemma BatchKeepsHolders(s: State, t: State, w: WorkerId, queue: string, now: int)
    requires JobsMatch(s.tables, s.children) && HoldersMatch(s) && BatchStep(s, t, w, queue, now) && OnlyMoves(s, t, w)
    ensures HoldersMatch(t)
  {
    var p := PcOf(s, w);
    assert Held(p) == Some(p.r);
    BatchInsertedJobs(s.tables, p.page, p.chunks, queue, now);
    assert forall r :: Holds(s.tables, r) ==> Holds(t.tables, r);
    HoldersKept(s, t, w);
  }

  /** The chunk jobs known before are still known, and the new ones are live. */
  lemma NewChildrenAreLive(s: State, t: State, w: WorkerId, queue: string, now: int)
    requires IdsIssued(s.tables, s.children) && BatchStep(s, t, w, queue, now)
    ensures forall id :: id in s.children ==> id in t.children && t.children[id] == s.children[id]
    ensures forall id :: id in t.children && t.children[id].fate != Live ==> id in s.children
  {
  }

  lemma BatchKeepsCounters(s: State, t: State, w: WorkerId, queue: string, now: int)
    requires JobsMatch(s.tables, s.children) && CountersMatch(s) && BatchStep(s, t, w, queue, now) && OnlyMoves(s, t, w)
    ensures CountersMatch(t)
  {
    NewChildrenAreLive(s, t, w, queue, now);
    CountersKept(s, t, w);
  }

  lemma BatchKeepsFailures(s: State, t: State, w: WorkerId, queue: string, now: int)
    requires JobsMatch(s.tables, s.children) && FailuresMatch(s) && BatchStep(s, t, w, queue, now) && OnlyMoves(s, t, w)
    ensures FailuresMatch(t)
  {
    BatchInsertedFrame(s.tables, PcOf(s, w).page, PcOf(s, w).chunks, queue, now);
    NewChildrenAreLive(s, t, w, queue, now);
  }

  lemma BatchKeepsAccounting(s: State, t: State, w: WorkerId, queue: string, now: int)
    requires Accounted(s) && BatchStep(s, t, w, queue, now)
    ensures Accounted(t)
  {
    BatchInsertedJobs(s.tables, PcOf(s, w).page, PcOf(s, w).chunks, queue, now);
    GrownKeepsJobs(s.tables, t.tables, s.children, PcOf(s, w).page, PcOf(s, w).chunks);
    BatchKeepsBalance(s, t, w, queue, now);
    ChunksMove(s, t, w, queue, now);
    BatchKeepsHolders(s, t, w, queue, now);
    BatchKeepsCounters(s, t, w, queue, now);
    BatchKeepsFailures(s, t, w, queue, now);
  }

  lemma AnnounceKeepsAccounting(s: State, t: State, w: WorkerId, now: int)
    requires Accounted(s) && CallbacksAreFinal(s) && AnnounceStep(s, t, w, now)
    ensures Accounted(t)
  {
    var p := PcOf(s, w);
    if t.tables == s.tables {
      QuietKeepsAccounting(s, t, w);
    } else {
      var cb := s.tables.batches[p.batch].onComplete.value;
      InsertKeepsAccounting(s, t, if cb.queue != "" then cb.queue else p.queue, cb.task, now, w);
    }
  }

  /** The completion job of a batch is a finalize job. */
  ghost predicate CallbacksAreFinal(s: State) {
    forall b :: b in s.tables.batches && s.tables.batches[b].onComplete.Some? ==>
      s.tables.batches[b].onComplete.value.task.PersistFinalize?
  }

  lemma BatchKeepsCallbacks(s: State, t: State, w: WorkerId, queue: string, now: int)
    requires CallbacksAreFinal(s) && BatchStep(s, t, w, queue, now)
    ensures CallbacksAreFinal(t)
  {
    BatchInsertedFrame(s.tables, PcOf(s, w).page, PcOf(s, w).chunks, queue, now);
  }

  lemma CountDownKeepsCallbacks(s: State, t: State, w: WorkerId)
    requires CallbacksAreFinal(s) && CountDownStep(s, t, w)
    ensures CallbacksAreFinal(t)
  {
  }

  lemma FinishKeepsCallbacks(s: State, t: State, w: WorkerId, now: int)
    requires CallbacksAreFinal(s) && FinishStep(s, t, w, now)
    ensures CallbacksAreFinal(t)
  {
  }

  lemma AnnounceKeepsCallbacks(s: State, t: State, w: WorkerId, now: int)
    requires CallbacksAreFinal(s) && AnnounceStep(s, t, w, now)
    ensures CallbacksAreFinal(t)
  {
    AnnounceFrame(s.tables, PcOf(s, w).batch, PcOf(s, w).queue, now);
  }

  lemma CallbacksKept(s: State, t: State, a: Step)
    requires CallbacksAreFinal(s) && Next(s, t, a)
    ensures CallbacksAreFinal(t)
  {
    if IsLocal(a) {
      LocalFrame(s, t, a);
    } else if IsQueueStep(a) {
      QueueFrame(s, t, a);
    } else if IsBatchStep(a) {
      match a
      case EnqueueChunks(w, queue, now) => BatchKeepsCallbacks(s, t, w, queue, now);
      case CountDownBatch(w) => CountDownKeepsCallbacks(s, t, w);
      case FinishBatch(w, now) => FinishKeepsCallbacks(s, t, w, now);
      case AnnounceBatch(w, now) => AnnounceKeepsCallbacks(s, t, w, now);
    } else {
      OutsideFrame(s, t, a);
    }
  }

  lemma MovesAreQuiet(s: State, p: Pc, q: Pc)
    requires Moves(s, p, q)
    ensures Quiet(p, q)
  {
  }

  lemma MarkProcessingIsQuiet(s: State, t: State, w: WorkerId)
    requires MarkProcessingStep(s, t, w)
    ensures Quiet(PcOf(s, w), PcOf(t, w))
  {
  }

  lemma MarkCompletedIsQuiet(s: State, t: State, w: WorkerId)
    requires MarkCompletedStep(s, t, w)
    ensures Quiet(PcOf(s, w), PcOf(t, w))
  {
  }

  lemma DeletePageIsQuiet(s: State, t: State, w: WorkerId)
    requires DeletePageStep(s, t, w)
    ensures Quiet(PcOf(s, w), PcOf(t, w))
  {
  }

  lemma SetPageIsQuiet(s: State, t: State, w: WorkerId)
    requires SetPageStep(s, t, w)
    ensures Quiet(PcOf(s, w), PcOf(t, w))
  {
    if MarkProcessingStep(s, t, w) {
      MarkProcessingIsQuiet(s, t, w);
    } else if MarkCompletedStep(s, t, w) {
      MarkCompletedIsQuiet(s, t, w);
    } else {
      DeletePageIsQuiet(s, t, w);
    }
  }

  lemma LocalStepIsQuiet(s: State, t: State, a: Step)
    requires IsLocal(a) && LocalNext(s, t, a)
    ensures Quiet(PcOf(s, a.w), PcOf(t, a.w))
  {
    match a
    case Spawn(w) =>
    case Move(w, to) => MovesAreQuiet(s, PcOf(s, w), to);
    case StoreFetched(w, parts) =>
    case SetPage(w) => SetPageIsQuiet(s, t, w);
    case WriteRows(w, sub, mirror) =>
  }

  lemma LocalKeepsAccounting(s: State, t: State, a: Step)
    requires Accounted(s) && IsLocal(a) && LocalNext(s, t, a)
    ensures Accounted(t)
  {
    LocalFrame(s, t, a);
    LocalStepIsQuiet(s, t, a);
    QuietKeepsAccounting(s, t, a.w);
  }

  lemma JobStepKeepsAccounting(s: State, t: State, a: Step)
    requires Accounted(s) && IsQueueStep(a) && QueueNext(s, t, a) && FailStop(s, a)
    ensures Accounted(t)
  {
    match a
    case ReserveJob(w, queue, now, before) => ReserveKeepsAccounting(s, t, w, queue, now, before);
    case ReleaseAgain(w, availableAt) => ReleaseKeepsAccounting(s, t, w, availableAt);
    case RecordFailed(w) => RecordKeepsAccounting(s, t, w);
    case DeleteReserved(w) => DeleteKeepsAccounting(s, t, w);
  }

  lemma BatchStepKeepsAccounting(s: State, t: State, a: Step)
    requires Accounted(s) && CallbacksAreFinal(s) && IsBatchStep(a) && BatchNext(s, t, a)
    ensures Accounted(t)
  {
    match a
    case EnqueueChunks(w, queue, now) => BatchKeepsAccounting(s, t, w, queue, now);
    case CountDownBatch(w) => CountDownKeepsAccounting(s, t, w);
    case FinishBatch(w, now) => MarkKeepsAccounting(s, t, w, now);
    case AnnounceBatch(w, now) => AnnounceKeepsAccounting(s, t, w, now);
  }

  lemma OutsideKeepsAccounting(s: State, t: State, a: Step)
    requires Accounted(s) && (a.EnqueuePlain? || a.OutsideWrite?) && OutsideNext(s, t, a)
    ensures Accounted(t)
  {
    match a
    case EnqueuePlain(queue, task, availableAt) => InsertKeepsAccounting(s, t, queue, task, availableAt, 0);
    case OutsideWrite(_) => QuietKeepsAccounting(s, t, 0);
  }

  lemma AccountingKept(s: State, t: State, a: Step)
    requires Accounted(s) && CallbacksAreFinal(s) && Next(s, t, a) && FailStop(s, a)
    ensures Accounted(t)
  {
    if IsLocal(a) {
      LocalKeepsAccounting(s, t, a);
    } else if IsQueueStep(a) {
      JobStepKeepsAccounting(s, t, a);
    } else if IsBatchStep(a) {
      BatchStepKeepsAccounting(s, t, a);
    } else {
      OutsideKeepsAccounting(s, t, a);
    }
  }

  // ---- Over runs ---------------------------------------------------------------------------------

  ghost predicate FailStopRun(states: seq<State>, steps: seq<Step>) {
    Run(states, steps) && forall i :: 0 <= i < |steps| ==> FailStop(states[i], steps[i])
  }

  lemma {:induction false} AccountedAlways(states: seq<State>, steps: seq<Step>, i: nat)
    requires FailStopRun(states, steps) && i < |states|
    ensures Accounted(states[i]) && CallbacksAreFinal(states[i])
  {
    if i > 0 {
      hide Next, Accounted, CallbacksAreFinal;
      AccountedAlways(states, steps, i - 1);
      AccountingKept(states[i - 1], states[i], steps[i - 1]);
      CallbacksKept(states[i - 1], states[i], steps[i - 1]);
    }
  }

  function WithFate(s: State, b: BatchId, fate: Fate): set<JobId> {
    set id | id in s.children && s.children[id].batch == b && s.children[id].fate == fate
  }

  function LinkedJobs(t: Tables<Task>, b: BatchId): set<JobId> {
    set id | id in t.jobs && t.jobs[id].batch == Some(b)
  }

  /** In every fail-stop run pending_jobs is the number of jobs of the batch still queued, plus its chunks
      moved to failed_jobs, plus its chunks deleted but not yet counted down. */
  lemma BatchAccounting(states: seq<State>, steps: seq<Step>, i: nat, b: BatchId)
    requires FailStopRun(states, steps) && i < |states| && b in states[i].tables.batches
    ensures var s := states[i];
      && s.tables.batches[b].pending == |LinkedJobs(s.tables, b)| + |WithFate(s, b, FailedOut)| +
         |WithFate(s, b, Uncounted)|
      && forall id :: id in WithFate(s, b, FailedOut) ==> FailureRecorded(s.tables.failed, s.children[id])
  {
    AccountedAlways(states, steps, i);
    OwedByFate(states[i], b);
  }

  lemma OwedByFate(s: State, b: BatchId)
    requires JobsMatch(s.tables, s.children)
    ensures |Owed(s.children, b)| == |LinkedJobs(s.tables, b)| + |WithFate(s, b, FailedOut)| +
      |WithFate(s, b, Uncounted)|
  {
    LinkedAreLive(s, b);
    OwedSplit(s, b);
    ThreeParts(WithFate(s, b, Live), WithFate(s, b, FailedOut), WithFate(s, b, Uncounted));
  }

  lemma LinkedAreLive(s: State, b: BatchId)
    requires JobsMatch(s.tables, s.children)
    ensures LinkedJobs(s.tables, b) == WithFate(s, b, Live)
  {
    forall id ensures id in LinkedJobs(s.tables, b) <==> id in WithFate(s, b, Live) {
      if id in s.children && id in s.tables.jobs { assert ChildJob(s.tables.jobs[id], s.children[id]); }
    }
  }

  lemma OwedSplit(s: State, b: BatchId)
    ensures Owed(s.children, b) == WithFate(s, b, Live) + WithFate(s, b, FailedOut) + WithFate(s, b, Uncounted)
    ensures WithFate(s, b, Live) !! WithFate(s, b, FailedOut)
    ensures WithFate(s, b, Uncounted) !! WithFate(s, b, Live) + WithFate(s, b, FailedOut)
  {
  }

  lemma ThreeParts(x: set<JobId>, y: set<JobId>, z: set<JobId>)
    requires x !! y && z !! x + y
    ensures |x + y + z| == |x| + |y| + |z|
  {
  }

  /** A batch with a failed chunk is never announced. */
  lemma FailedChunkBlocksFinalize(states: seq<State>, steps: seq<Step>, i: nat, b: BatchId)
    requires FailStopRun(states, steps) && i < |states| && Announcements(states[i], b) > 0
    ensures WithFate(states[i], b, FailedOut) == {} && LinkedJobs(states[i].tables, b) == {}
    ensures Owed(states[i].children, b) == {}
  {
    FinalizeAtMostOnce(states, steps, i);
    assert Drained(states[i], b);
    BatchAccounting(states, steps, i, b);
    AccountedAlways(states, steps, i);
  }
}
