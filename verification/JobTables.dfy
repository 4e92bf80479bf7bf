/** The PostgreSQL job queue (internal/queue/queue.go): the tables jobs, failed_jobs and job_batches as
    one value, and the effect of each SQL statement or transaction as a function on it.

    A payload is a task with an optional batch id (the batch_id wrapper); ids come from counters. */
module JobTables {
  import opened Wrappers

  type JobId = nat
  type BatchId = nat

  datatype Job<T> = Job(queue: string, task: T, batch: Option<BatchId>,
                        attempts: nat, reservedAt: Option<int>, availableAt: int)

  datatype Callback<T> = Callback(queue: string, task: T)

  datatype Batch<T> = Batch(total: nat, pending: nat, onComplete: Option<Callback<T>>, finishedAt: Option<int>)

  datatype Failure<T> = Failure(queue: string, task: T, batch: Option<BatchId>)

  datatype Tables<T> = Tables(jobs: map<JobId, Job<T>>, nextJob: JobId, failed: seq<Failure<T>>,
                              batches: map<BatchId, Batch<T>>, nextBatch: BatchId)
  {
    /** Every job id was handed out by the counter. */
    ghost predicate Valid() {
      (forall id :: id in jobs ==> id < nextJob) && (forall b :: b in batches ==> b < nextBatch)
    }
  }

  datatype Reserved<T> = Reserved(id: JobId, job: Job<T>)

  // ---- Statements ----------------------------------------------------------------------------

  function Insert<T>(t: Tables<T>, queue: string, task: T, batch: Option<BatchId>, availableAt: int): Tables<T> {
    t.(jobs := t.jobs[t.nextJob := Job(queue, task, batch, 0, None, availableAt)], nextJob := t.nextJob + 1)
  }

  function InsertAll<T>(t: Tables<T>, queue: string, tasks: seq<T>, batch: BatchId, now: int): Tables<T> {
    if tasks == [] then t else
      Insert(InsertAll(t, queue, tasks[..|tasks| - 1], batch, now), queue, tasks[|tasks| - 1], Some(batch), now)
  }

  /** The EnqueueBatch transaction. */
  function InsertBatch<T>(t: Tables<T>, queue: string, tasks: seq<T>, onComplete: Option<Callback<T>>,
                          now: int): Tables<T> {
    var b := t.nextBatch;
    var u := t.(batches := t.batches[b := Batch(|tasks|, |tasks|, onComplete, None)], nextBatch := b + 1);
    InsertAll(u, queue, tasks, b, now)
  }

  predicate Stale<T>(job: Job<T>, before: int) {
    job.reservedAt.Some? && job.reservedAt.value < before
  }

  /** The first UPDATE of reserveFromQueues: stale reservations become available now. */
  function Reclaim<T>(t: Tables<T>, now: int, before: int): Tables<T> {
    t.(jobs := map id | id in t.jobs ::
      if Stale(t.jobs[id], before) then t.jobs[id].(reservedAt := None, availableAt := now) else t.jobs[id])
  }

  predicate Eligible<T>(t: Tables<T>, queues: seq<string>, now: int, id: JobId) {
    id in t.jobs && t.jobs[id].queue in queues && t.jobs[id].reservedAt.None? && t.jobs[id].availableAt <= now
  }

  /** ORDER BY id ASC LIMIT 1, searching from the given id. */
  function FirstEligible<T>(t: Tables<T>, queues: seq<string>, now: int, from: JobId): (r: Option<JobId>)
    ensures r.Some? ==> from <= r.value < t.nextJob && Eligible(t, queues, now, r.value)
    ensures r.Some? ==> forall id :: from <= id < r.value ==> !Eligible(t, queues, now, id)
    ensures r.None? ==> forall id :: from <= id < t.nextJob ==> !Eligible(t, queues, now, id)
    decreases t.nextJob - from
  {
    if from >= t.nextJob then None
    else if Eligible(t, queues, now, from) then Some(from)
    else FirstEligible(t, queues, now, from + 1)
  }

  function Candidate<T>(t: Tables<T>, queues: seq<string>, now: int, before: int): Option<JobId> {
    FirstEligible(Reclaim(t, now, before), queues, now, 0)
  }

  predicate HasWork<T>(t: Tables<T>, queue: string, now: int, before: int) {
    Candidate(t, [queue], now, before).Some?
  }

  /** The committed reserveFromQueues transaction. */
  function Reserve<T>(t: Tables<T>, id: JobId, now: int, before: int): Tables<T>
    requires id in t.jobs
  {
    var u := Reclaim(t, now, before);
    u.(jobs := u.jobs[id := u.jobs[id].(reservedAt := Some(now), attempts := u.jobs[id].attempts + 1)])
  }

  /** What a reserve on one queue hands out and the tables it leaves; without a candidate the
      transaction, reclaim included, is rolled back. */
  function ReserveOn<T>(t: Tables<T>, queue: Option<string>, now: int, before: int): (Option<Reserved<T>>, Tables<T>) {
    var c := if queue.Some? then Candidate(t, [queue.value], now, before) else None;
    if c.None? then (None, t) else
      var u := Reserve(t, c.value, now, before);
      (Some(Reserved(c.value, u.jobs[c.value])), u)
  }

  function DeleteJob<T>(t: Tables<T>, id: JobId): Tables<T> {
    t.(jobs := t.jobs - {id})
  }

  function ReleaseJob<T>(t: Tables<T>, id: JobId, availableAt: int): Tables<T> {
    if id in t.jobs then t.(jobs := t.jobs[id := t.jobs[id].(reservedAt := None, availableAt := availableAt)]) else t
  }

  function RecordFailure<T>(t: Tables<T>, job: Job<T>): Tables<T> {
    t.(failed := t.failed + [Failure(job.queue, job.task, job.batch)])
  }

  predicate CanCountDown<T>(t: Tables<T>, b: BatchId) {
    b in t.batches && t.batches[b].pending > 0
  }

  /** UPDATE job_batches SET pending_jobs = pending_jobs - 1 WHERE id = $1 AND pending_jobs > 0. */
  function CountDown<T>(t: Tables<T>, b: BatchId): Tables<T> {
    if CanCountDown(t, b) then t.(batches := t.batches[b := t.batches[b].(pending := t.batches[b].pending - 1)]) else t
  }

  function MarkFinished<T>(t: Tables<T>, b: BatchId, now: int): Tables<T> {
    if b in t.batches then t.(batches := t.batches[b := t.batches[b].(finishedAt := Some(now))]) else t
  }

  /** The callback insert of CompleteBatchJob; workers pass an empty fallback type. */
  function Announce<T>(t: Tables<T>, b: BatchId, jobQueue: string, now: int): Tables<T> {
    if b in t.batches && t.batches[b].onComplete.Some? then
      var cb := t.batches[b].onComplete.value;
      var queue := if cb.queue != "" then cb.queue else jobQueue;
      if queue != "" then Insert(t, queue, cb.task, None, now) else t
    else t
  }

  function CompleteBatchJobResult<T>(t: Tables<T>, b: BatchId, jobQueue: string, now: int): Tables<T> {
    var u := CountDown(t, b);
    if CanCountDown(t, b) && u.batches[b].pending == 0 then Announce(MarkFinished(u, b, now), b, jobQueue, now) else u
  }

  function ReleaseResult<T>(t: Tables<T>, r: Reserved<T>, maxAttempts: nat, availableAt: int): Tables<T> {
    if r.job.attempts >= maxAttempts then DeleteJob(RecordFailure(t, r.job), r.id)
    else ReleaseJob(t, r.id, availableAt)
  }

  // ---- What the statements keep --------------------------------------------------------------

  /** A batch insert adds one job per task, in order, all linked to the new batch, and changes no other job. */
  lemma {:induction false} InsertAllJobs<T>(t: Tables<T>, queue: string, tasks: seq<T>, batch: BatchId, now: int)
    requires t.Valid()
    ensures var u := InsertAll(t, queue, tasks, batch, now);
      && (forall id :: id in u.jobs ==> id < u.nextJob)
      && u.nextJob == t.nextJob + |tasks| && u.batches == t.batches && u.failed == t.failed &&
         u.nextBatch == t.nextBatch
      && (forall id :: id in u.jobs <==> id in t.jobs || t.nextJob <= id < t.nextJob + |tasks|)
      && (forall id :: id in t.jobs ==> u.jobs[id] == t.jobs[id])
      && (forall i :: 0 <= i < |tasks| ==> u.jobs[t.nextJob + i] == Job(queue, tasks[i], Some(batch), 0, None, now))
  {
    if tasks != [] {
      var n := |tasks| - 1;
      InsertAllJobs(t, queue, tasks[..n], batch, now);
      assert forall i :: 0 <= i < n ==> tasks[..n][i] == tasks[i];
    }
  }

  /** No job is lost on failure: a released job is still queued, or recorded in failed_jobs. */
  lemma ReleaseConserves<T>(t: Tables<T>, r: Reserved<T>, maxAttempts: nat, availableAt: int)
    requires r.id in t.jobs
    ensures var u := ReleaseResult(t, r, maxAttempts, availableAt);
      && (r.id in u.jobs <==> r.job.attempts < maxAttempts)
      && (r.id !in u.jobs ==> u.failed == t.failed + [Failure(r.job.queue, r.job.task, r.job.batch)])
      && (r.id in u.jobs ==> u.failed == t.failed && u.jobs[r.id].reservedAt.None?)
      && (r.id in u.jobs ==> u.jobs[r.id].attempts == t.jobs[r.id].attempts)
      && u.jobs - {r.id} == t.jobs - {r.id}
  {
    var u := ReleaseResult(t, r, maxAttempts, availableAt);
    assert forall id :: id in u.jobs - {r.id} <==> id in t.jobs - {r.id};
  }
}
