/** Client (internal/queue/queue.go) over mutable tables, and the Worker's choice of the next job
    (internal/queue/worker.go, internal/queue/worker_queues.go). */
module JobQueue {
  import opened Wrappers
  import opened JobTables
  import opened Scheduling

  /** The queues that hold a reservable job. */
  ghost function Work<T>(t: Tables<T>, now: int, before: int): iset<string> {
    iset q | HasWork(t, q, now, before)
  }

  class Client<T> {
    var jobs: map<JobId, Job<T>>
    var nextJob: JobId
    var failed: seq<Failure<T>>
    var batches: map<BatchId, Batch<T>>
    var nextBatch: BatchId
    const retryAfter: int
    const reservationTimeout: int

    constructor (retryAfter: int, reservationTimeout: int)
      ensures Snapshot() == Tables(map[], 0, [], map[], 0)
      ensures this.retryAfter == retryAfter
      ensures this.reservationTimeout == if reservationTimeout <= 0 then 3600 else reservationTimeout
    {
      jobs, nextJob, failed, batches, nextBatch := map[], 0, [], map[], 0;
      this.retryAfter := retryAfter;
      this.reservationTimeout := if reservationTimeout <= 0 then 3600 else reservationTimeout;
    }

    function Snapshot(): Tables<T>
      reads this
    {
      Tables(jobs, nextJob, failed, batches, nextBatch)
    }

    method Enqueue(queue: string, task: T, delay: int, now: int) returns (id: JobId)
      modifies this
      ensures Snapshot() == Insert(old(Snapshot()), queue, task, None, if delay > 0 then now + delay else now)
      ensures id == old(nextJob) && id in jobs
    {
      var available := now;
      if delay > 0 {
        available := now + delay;
      }
      id := nextJob;
      jobs := jobs[id := Job(queue, task, None, 0, None, available)];
      nextJob := nextJob + 1;
    }

    /** An empty batch is refused; otherwise the batch row and one job per task appear together. */
    method EnqueueBatch(queue: string, tasks: seq<T>, onComplete: Option<Callback<T>>, now: int)
      returns (id: Option<BatchId>)
      modifies this
      ensures tasks == [] ==> id.None? && Snapshot() == old(Snapshot())
      ensures tasks != [] ==> id == Some(old(nextBatch))
      ensures tasks != [] ==> Snapshot() == InsertBatch(old(Snapshot()), queue, tasks, onComplete, now)
    {
      if |tasks| == 0 {
        return None;
      }
      var b := nextBatch;
      batches := batches[b := Batch(|tasks|, |tasks|, onComplete, None)];
      nextBatch := b + 1;
      ghost var start := Snapshot();
      for i := 0 to |tasks|
        invariant Snapshot() == InsertAll(start, queue, tasks[..i], b, now)
      {
        assert tasks[..i + 1][..i] == tasks[..i];
        jobs := jobs[nextJob := Job(queue, tasks[i], Some(b), 0, None, now)];
        nextJob := nextJob + 1;
      }
      assert tasks[..|tasks|] == tasks;
      id := Some(b);
    }

    /** reserveFromQueues: with no candidate the transaction, reclaim included, is rolled back. */
    method ReserveFromQueues(queues: seq<string>, now: int) returns (r: Option<Reserved<T>>)
      modifies this
      ensures var c := if queues == [] then None else Candidate(old(Snapshot()), queues, now, now - reservationTimeout);
        && (c.None? ==> r.None? && Snapshot() == old(Snapshot()))
        && (c.Some? ==>
              && c.value in old(jobs)
              && Snapshot() == Reserve(old(Snapshot()), c.value, now, now - reservationTimeout)
              && r == Some(Reserved(c.value, jobs[c.value])))
    {
      if |queues| == 0 {
        return None;
      }
      var u := Reclaim(Snapshot(), now, now - reservationTimeout);
      var c := FirstEligible(u, queues, now, 0);
      if c.None? {
        return None;
      }
      var job := u.jobs[c.value];
      jobs := u.jobs[c.value := job.(reservedAt := Some(now), attempts := job.attempts + 1)];
      r := Some(Reserved(c.value, jobs[c.value]));
    }

    /** ReserveFair: the first queue with work, going round from startIndex. */
    method ReserveFair(queues: seq<string>, startIndex: nat, now: int) returns (r: Option<Reserved<T>>, next: nat)
      modifies this
      ensures var before := now - reservationTimeout;
        var pick := FairPick(queues, startIndex, Work(old(Snapshot()), now, before));
        && (r, Snapshot()) ==
           ReserveOn(old(Snapshot()), if pick.Some? then Some(queues[pick.value]) else None, now, before)
        && (r.Some? <==> pick.Some?)
        && next == if pick.Some? then Wrapped(pick.value + 1, |queues|) else if queues == [] then 0 else startIndex
    {
      if |queues| == 0 {
        return None, 0;
      }
      var n := |queues|;
      ghost var work := Work(Snapshot(), now, now - reservationTimeout);
      ghost var pick := FairPick(queues, startIndex, work);
      for i := 0 to n
        invariant Snapshot() == old(Snapshot())
        invariant pick == FairPickFrom(queues, startIndex, work, i)
      {
        var idx := (startIndex + i) % n;
        var job := ReserveFromQueues([queues[idx]], now);
        if job.Some? {
          return job, (idx + 1) % n;
        }
      }
      return None, startIndex;
    }

    method Delete(id: JobId)
      modifies this
      ensures Snapshot() == DeleteJob(old(Snapshot()), id)
    {
      jobs := jobs - {id};
    }

    method Release(r: Reserved<T>, maxAttempts: nat, now: int)
      modifies this
      ensures Snapshot() == ReleaseResult(old(Snapshot()), r, maxAttempts, now + retryAfter)
    {
      if r.job.attempts >= maxAttempts {
        Fail(r);
        return;
      }
      if r.id in jobs {
        jobs := jobs[r.id := jobs[r.id].(reservedAt := None, availableAt := now + retryAfter)];
      }
    }

    method Fail(r: Reserved<T>)
      modifies this
      ensures Snapshot() == DeleteJob(RecordFailure(old(Snapshot()), r.job), r.id)
    {
      failed := failed + [Failure(r.job.queue, r.job.task, r.job.batch)];
      Delete(r.id);
    }

    method CompleteBatchJob(b: BatchId, jobQueue: string, now: int)
      modifies this
      ensures Snapshot() == CompleteBatchJobResult(old(Snapshot()), b, jobQueue, now)
    {
      if b !in batches || batches[b].pending == 0 {
        return;
      }
      var batch := batches[b].(pending := batches[b].pending - 1);
      batches := batches[b := batch];
      if batch.pending == 0 {
        batches := batches[b := batch.(finishedAt := Some(now))];
        if batch.onComplete.Some? {
          var cb := batch.onComplete.value;
          var queue := jobQueue;
          if cb.queue != "" {
            queue := cb.queue;
          }
          if queue != "" {
            var _ := Enqueue(queue, cb.task, 0, now);
          }
        }
      }
    }
  }

  class Worker<T> {
    const client: Client<T>
    const queues: seq<string>
    var fairQueueCursor: nat
    var fairFetchCursor: nat
    var fairPersistCursor: nat
    var fairOtherCursor: nat
    var fairPoolCursor: nat

    constructor (client: Client<T>, queues: seq<string>)
      ensures this.client == client && this.queues == queues
      ensures Position() == Cursors(0, [0, 0, 0], 0)
    {
      this.client, this.queues := client, queues;
      fairQueueCursor, fairFetchCursor, fairPersistCursor, fairOtherCursor, fairPoolCursor := 0, 0, 0, 0, 0;
    }

    function Position(): Cursors
      reads this
    {
      Cursors(fairQueueCursor, [fairFetchCursor, fairPersistCursor, fairOtherCursor], fairPoolCursor)
    }

    /** reserveNext: the queue served and the cursors left behind are those of the scheduling function. */
    method ReserveNext(now: int) returns (r: Option<Reserved<T>>)
      modifies this, client
      ensures var before := now - client.reservationTimeout;
        var choice := Choose(queues, old(Position()), Work(old(client.Snapshot()), now, before));
        && Position() == choice.cursors
        && (r, client.Snapshot()) == ReserveOn(old(client.Snapshot()), choice.served, now, before)
    {
      if |queues| <= 1 {
        r := ReserveOnly(now);
        return;
      }
      var fetchQ, persistQ, otherQ := PartitionWorkerQueues(queues);
      if |fetchQ| > 0 && |persistQ| > 0 {
        r := ReserveWeighted(fetchQ, persistQ, otherQ, now);
        return;
      }
      r := ReserveRoundRobin(now);
    }

    method ReserveRoundRobin(now: int) returns (r: Option<Reserved<T>>)
      modifies this, client
      ensures var before := now - client.reservationTimeout;
        var choice := ChooseFair(queues, old(Position()), Work(old(client.Snapshot()), now, before));
        && Position() == choice.cursors
        && (r, client.Snapshot()) == ReserveOn(old(client.Snapshot()), choice.served, now, before)
    {
      var next;
      r, next := client.ReserveFair(queues, fairQueueCursor, now);
      fairQueueCursor := next;
    }

    method ReserveOnly(now: int) returns (r: Option<Reserved<T>>)
      requires |queues| <= 1
      modifies client
      ensures var before := now - client.reservationTimeout;
        var has := queues != [] && queues[0] in Work(old(client.Snapshot()), now, before);
        (r, client.Snapshot()) == ReserveOn(old(client.Snapshot()), if has then Some(queues[0]) else None, now, before)
    {
      assert queues != [] ==> queues == [queues[0]];
      r := client.ReserveFromQueues(queues, now);
    }

    method ReserveWeighted(fetchQ: seq<string>, persistQ: seq<string>, otherQ: seq<string>, now: int)
      returns (r: Option<Reserved<T>>)
      requires fetchQ != [] && persistQ != []
      modifies this, client
      ensures fairQueueCursor == old(fairQueueCursor)
      ensures var before := now - client.reservationTimeout;
        var choice := ChooseWeighted(PoolsOf(fetchQ, persistQ, otherQ), old(Position()),
          Work(old(client.Snapshot()), now, before));
        && Position() == choice.cursors
        && (r, client.Snapshot()) == ReserveOn(old(client.Snapshot()), choice.served, now, before)
    {
      r := ServePools(PoolsOf(fetchQ, persistQ, otherQ), now);
    }

    /** The pools of reserveWeighted; the pool cursor moves past the pool that serves. */
    method ServePools(pools: seq<seq<string>>, now: int) returns (r: Option<Reserved<T>>)
      requires 0 < |pools| <= 3 && forall p :: 0 <= p < |pools| ==> pools[p] != []
      modifies this, client
      ensures fairQueueCursor == old(fairQueueCursor)
      ensures var before := now - client.reservationTimeout;
        var choice := ChooseWeighted(pools, old(Position()), Work(old(client.Snapshot()), now, before));
        && Position() == choice.cursors
        && (r, client.Snapshot()) == ReserveOn(old(client.Snapshot()), choice.served, now, before)
    {
      assert ReserveOn(client.Snapshot(), None, now, now - client.reservationTimeout) == (None, client.Snapshot());
      hide ReserveOn, Work, FairPick, PoolPick;
      var idx;
      r, idx := TryPools(pools, now);
      if r.Some? {
        fairPoolCursor := Wrapped(idx + 1, |pools|);
      }
    }

    /** The loop over the pools, from the pool cursor on, up to one that has work. */
    method TryPools(pools: seq<seq<string>>, now: int) returns (r: Option<Reserved<T>>, idx: nat)
      requires 0 < |pools| <= 3 && forall p :: 0 <= p < |pools| ==> pools[p] != []
      modifies this, client
      ensures fairQueueCursor == old(fairQueueCursor)
      ensures var before := now - client.reservationTimeout;
        var start, t := old(Position()), old(client.Snapshot());
        var work := Work(t, now, before);
        match PoolPick(pools, start, work)
        case None => r.None? && Position() == start && client.Snapshot() == t
        case Some(p) =>
          var pick := FairPick(pools[p], start.perPool[p], work).value;
          && r.Some? && idx == p && Position() == start.(perPool := start.perPool[p := Wrapped(pick + 1, |pools[p]|)])
          && (r, client.Snapshot()) == ReserveOn(t, Some(pools[p][pick]), now, before)
    {
      var n := |pools|;
      ghost var start, t := Position(), client.Snapshot();
      ghost var work := Work(t, now, now - client.reservationTimeout);
      hide ReserveOn, Work, FairPick, FairPickFrom, Wrapped;
      for i := 0 to n
        invariant client.Snapshot() == t && Position() == start && fairQueueCursor == old(fairQueueCursor)
        invariant PoolPick(pools, start, work) == PoolPickFrom(pools, start, work, i)
      {
        idx := Wrapped(fairPoolCursor + i, n);
        PoolTurn(pools, start, work, i, idx);
        r := ReserveFromPool(idx, pools[idx], now);
        if r.Some? {
          return;
        }
      }
      r, idx := None, 0;
    }

    /** One pool's turn: its own cursor moves past the queue served, or stays. */
    method ReserveFromPool(idx: nat, pool: seq<string>, now: int) returns (job: Option<Reserved<T>>)
      requires idx < 3 && pool != []
      modifies this, client
      ensures var before := now - client.reservationTimeout;
        var start := old(Position());
        var pick := FairPick(pool, start.perPool[idx], Work(old(client.Snapshot()), now, before));
        && (job, client.Snapshot()) ==
           ReserveOn(old(client.Snapshot()), if pick.Some? then Some(pool[pick.value]) else None, now, before)
        && (job.Some? <==> pick.Some?)
        && Position() ==
           if pick.Some? then start.(perPool := start.perPool[idx := Wrapped(pick.value + 1, |pool|)]) else start
      ensures job.None? ==> client.Snapshot() == old(client.Snapshot()) && Position() == old(Position())
      ensures fairQueueCursor == old(fairQueueCursor)
    {
      var next;
      job, next := client.ReserveFair(pool, CursorOf(idx), now);
      StoreCursor(idx, next);
    }

    function CursorOf(idx: nat): nat
      requires idx < 3
      reads this
    {
      Position().perPool[idx]
    }

    method StoreCursor(idx: nat, next: nat)
      requires idx < 3
      modifies this
      ensures Position() == old(Position()).(perPool := old(Position()).perPool[idx := next])
    {
      if idx == 0 {
        fairFetchCursor := next;
      } else if idx == 1 {
        fairPersistCursor := next;
      } else {
        fairOtherCursor := next;
      }
    }
  }
}
