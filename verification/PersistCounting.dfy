/** Counting in every run, with no fail-stop assumption: a batch is announced when pending_jobs has been counted
    down once for each of its chunk jobs, but not always once by each (internal/queue/queue.go,
    internal/queue/worker.go). */
module PersistCounting {
  import opened Wrappers
  import opened JobTables
  import opened ListingMirror
  import opened PersistProtocol
  import opened PersistAccounting
  import opened PersistHydration

  // ---- What a worker knows of its job ------------------------------------------------------------

  ghost predicate JobIs(children: map<JobId, Child>, id: JobId, job: Job<Task>) {
    if id in children then ChildJob(job, children[id]) else job.batch.None? && !job.task.PersistChunk?
  }

  ghost predicate KnownJobs(t: Tables<Task>, children: map<JobId, Child>) {
    && t.Valid() && IdsIssued(t, children)
    && (forall id :: id in children ==> children[id].batch in t.batches)
    && (forall id :: id in t.jobs ==> JobIs(children, id, t.jobs[id]))
  }

  /** The job that a worker holds, or counts down, is the chunk job that it was. Its row may be gone. */
  ghost predicate KnownPc(s: State, p: Pc) {
    && (Held(p).Some? ==> Held(p).value.id < s.tables.nextJob && JobIs(s.children, Held(p).value.id, Held(p).value.job))
    && (p.Counting? ==> p.id in ChildrenOf(s.children, p.batch) && ChunkWritten(s, p.id))
  }

  function ChildrenOf(children: map<JobId, Child>, b: BatchId): set<JobId> {
    set id | id in children && children[id].batch == b
  }

  /** The chunk of the job has been written. */
  ghost predicate ChunkWritten(s: State, id: JobId) {
    id in s.children && ChunkDone(s.stored, s.children[id].page, s.children[id].index)
  }

  ghost predicate Known(s: State) {
    KnownJobs(s.tables, s.children) && forall w: WorkerId :: KnownPc(s, PcOf(s, w))
  }

  /** Chunk jobs stay, and new ones have new ids. */
  ghost predicate Extends(s: State, t: State) {
    && Continues(s.children, t.children) && s.tables.nextJob <= t.tables.nextJob
    && (forall id :: id in t.children && id !in s.children ==> id >= s.tables.nextJob)
  }

  lemma JobStays(s: State, t: State, id: JobId, job: Job<Task>)
    requires Extends(s, t) && id < s.tables.nextJob && JobIs(s.children, id, job)
    ensures JobIs(t.children, id, job)
  {
    if id in s.children { assert t.children[id].(fate := Live) == s.children[id].(fate := Live); }
  }

  lemma PcStays(s: State, t: State, p: Pc)
    requires Extends(s, t) && Grows(s.stored, t.stored) && KnownPc(s, p)
    ensures KnownPc(t, p)
  {
    if Held(p).Some? { JobStays(s, t, Held(p).value.id, Held(p).value.job); }
    if p.Counting? { assert t.children[p.id].(fate := Live) == s.children[p.id].(fate := Live); }
  }

  // ---- Step by step ------------------------------------------------------------------------------

  lemma SameWorkKeepsKnown(t: Tables<Task>, u: Tables<Task>, children: map<JobId, Child>)
    requires KnownJobs(t, children) && SameWork(t, u)
    ensures KnownJobs(u, children)
  {
    forall id | id in u.jobs ensures JobIs(children, id, u.jobs[id]) { assert JobIs(children, id, t.jobs[id]); }
  }

  lemma InsertKeepsKnown(t: Tables<Task>, children: map<JobId, Child>, queue: string, task: Task, availableAt: int)
    requires KnownJobs(t, children) && !task.PersistChunk?
    ensures KnownJobs(Insert(t, queue, task, None, availableAt), children)
  {
    var u := Insert(t, queue, task, None, availableAt);
    forall id | id in u.jobs ensures JobIs(children, id, u.jobs[id]) {
      if id in t.jobs { assert JobIs(children, id, t.jobs[id]); }
    }
  }

  lemma SetFateKeepsKnown(t: Tables<Task>, children: map<JobId, Child>, id: JobId, fate: Fate)
    requires KnownJobs(t, children)
    ensures KnownJobs(t, SetFate(children, id, fate))
  {
    var more := SetFate(children, id, fate);
    forall j | j in t.jobs ensures JobIs(more, j, t.jobs[j]) { assert JobIs(children, j, t.jobs[j]); }
  }

  lemma DeleteKeepsKnown(s: State, t: State, w: WorkerId)
    requires KnownJobs(s.tables, s.children) && DeleteStep(s, t, w)
    ensures KnownJobs(t.tables, t.children)
  {
    var id := PcOf(s, w).r.id;
    var u := DeleteJob(s.tables, id);
    assert KnownJobs(u, s.children) by {
      forall j | j in u.jobs ensures JobIs(s.children, j, u.jobs[j]) { assert JobIs(s.children, j, s.tables.jobs[j]); }
    }
    SetFateKeepsKnown(u, s.children, id, if PcOf(s, w).Succeeded? then Uncounted else FailedOut);
  }

  lemma GrownKeepsKnown(t: Tables<Task>, u: Tables<Task>, children: map<JobId, Child>, page: PageId, n: nat)
    requires KnownJobs(t, children) && GrownBy(t, u, page, n)
    ensures KnownJobs(u, children + NewChildren(t.nextJob, n, t.nextBatch, page))
  {
    var more := children + NewChildren(t.nextJob, n, t.nextBatch, page);
    assert forall id :: id in more <==> id in children || t.nextJob <= id < t.nextJob + n;
    assert forall id :: id in children ==> more[id] == children[id];
    forall id | id in u.jobs ensures JobIs(more, id, u.jobs[id]) {
      if id in t.jobs { assert JobIs(children, id, t.jobs[id]); }
    }
  }

  lemma ReserveKnown(s: State, t: State, w: WorkerId, queue: string, now: int, before: int)
    requires Known(s) && ReserveStep(s, t, w, queue, now, before)
    ensures KnownJobs(t.tables, t.children) && Extends(s, t) && KnownPc(t, PcOf(t, w))
  {
    var id := Candidate(s.tables, [queue], now, before).value;
    assert id in Reclaim(s.tables, now, before).jobs;
    ReserveSameWork(s.tables, id, now, before);
    SameWorkKeepsKnown(s.tables, t.tables, s.children);
    assert JobIs(t.children, id, t.tables.jobs[id]);
  }

  lemma ReleaseKnown(s: State, t: State, w: WorkerId, availableAt: int)
    requires Known(s) && ReleaseStep(s, t, w, availableAt)
    ensures KnownJobs(t.tables, t.children) && Extends(s, t) && KnownPc(t, PcOf(t, w))
  {
    ReleaseSameWork(s.tables, PcOf(s, w).r.id, availableAt);
    SameWorkKeepsKnown(s.tables, t.tables, s.children);
  }

  lemma RecordKnown(s: State, t: State, w: WorkerId)
    requires Known(s) && RecordStep(s, t, w)
    ensures KnownJobs(t.tables, t.children) && Extends(s, t) && KnownPc(t, PcOf(t, w))
  {
    assert KnownPc(s, PcOf(s, w));
    assert Held(PcOf(s, w)) == Some(PcOf(s, w).r);
    assert SameWork(s.tables, t.tables.(failed := s.tables.failed));
    SameWorkKeepsKnown(s.tables, t.tables.(failed := s.tables.failed), s.children);
  }

  lemma DeleteKnown(s: State, t: State, w: WorkerId)
    requires Known(s) && PcMatches(s.stored, PcOf(s, w)) && DeleteStep(s, t, w)
    ensures KnownJobs(t.tables, t.children) && Extends(s, t) && KnownPc(t, PcOf(t, w))
  {
    var r := PcOf(s, w).r;
    assert KnownPc(s, PcOf(s, w));
    assert Held(PcOf(s, w)) == Some(r);
    DeleteKeepsKnown(s, t, w);
    DeleteContinues(s, t, w);
  }

  lemma ChunksKnown(s: State, t: State, w: WorkerId, queue: string, now: int)
    requires Known(s) && BatchStep(s, t, w, queue, now)
    ensures KnownJobs(t.tables, t.children) && Extends(s, t) && KnownPc(t, PcOf(t, w))
  {
    var p := PcOf(s, w);
    assert KnownPc(s, p);
    assert Held(p) == Some(p.r);
    BatchInsertedJobs(s.tables, p.page, p.chunks, queue, now);
    GrownKeepsKnown(s.tables, t.tables, s.children, p.page, p.chunks);
    BatchContinues(s, t, w, queue, now);
    JobStays(s, t, p.r.id, p.r.job);
  }

  lemma CountDownKnown(s: State, t: State, w: WorkerId)
    requires Known(s) && CountDownStep(s, t, w)
    ensures KnownJobs(t.tables, t.children) && Extends(s, t) && KnownPc(t, PcOf(t, w))
  {
    if CountedStep(s, t, w) {
      CountedUnclaimed(s, t, w);
      CountDownContinues(s, t, w);
      SetFateKeepsKnown(s.tables, s.children, PcOf(s, w).id, Counted);
      assert t.tables.batches.Keys == s.tables.batches.Keys;
    }
  }

  lemma FinishKnown(s: State, t: State, w: WorkerId, now: int)
    requires Known(s) && FinishStep(s, t, w, now)
    ensures KnownJobs(t.tables, t.children) && Extends(s, t) && KnownPc(t, PcOf(t, w))
  {
    FinishMarks(s, t, w, now);
  }

  lemma AnnounceKnown(s: State, t: State, w: WorkerId, now: int)
    requires Known(s) && CallbacksAreFinal(s) && AnnounceStep(s, t, w, now)
    ensures KnownJobs(t.tables, t.children) && Extends(s, t) && KnownPc(t, PcOf(t, w))
  {
    var p := PcOf(s, w);
    if t.tables != s.tables {
      var cb := s.tables.batches[p.batch].onComplete.value;
      InsertKeepsKnown(s.tables, s.children, if cb.queue != "" then cb.queue else p.queue, cb.task, now);
    }
  }

  lemma LocalKnown(s: State, t: State, a: Step)
    requires Known(s) && IsLocal(a) && LocalNext(s, t, a)
    ensures KnownJobs(t.tables, t.children) && Extends(s, t) && (Grows(s.stored, t.stored) ==> KnownPc(t, PcOf(t, a.w)))
  {
    LocalFrame(s, t, a);
    LocalStepIsQuiet(s, t, a);
    assert KnownPc(s, PcOf(s, a.w));
    assert KnownPc(s, PcOf(t, a.w));
    if Grows(s.stored, t.stored) { PcStays(s, t, PcOf(t, a.w)); }
  }

  lemma QueueKnown(s: State, t: State, a: Step)
    requires Known(s) && PcsMatch(s) && IsQueueStep(a) && QueueNext(s, t, a)
    ensures KnownJobs(t.tables, t.children) && Extends(s, t) && KnownPc(t, PcOf(t, a.w))
  {
    match a
    case ReserveJob(w, queue, now, before) => ReserveKnown(s, t, w, queue, now, before);
    case ReleaseAgain(w, availableAt) => ReleaseKnown(s, t, w, availableAt);
    case RecordFailed(w) => RecordKnown(s, t, w);
    case DeleteReserved(w) =>
      assert PcMatches(s.stored, PcOf(s, w));
      DeleteKnown(s, t, w);
  }

  lemma BatchKnown(s: State, t: State, a: Step)
    requires Known(s) && CallbacksAreFinal(s) && IsBatchStep(a) && BatchNext(s, t, a)
    ensures KnownJobs(t.tables, t.children) && Extends(s, t) && KnownPc(t, PcOf(t, a.w))
  {
    match a
    case EnqueueChunks(w, queue, now) => ChunksKnown(s, t, w, queue, now);
    case CountDownBatch(w) => CountDownKnown(s, t, w);
    case FinishBatch(w, now) => FinishKnown(s, t, w, now);
    case AnnounceBatch(w, now) => AnnounceKnown(s, t, w, now);
  }

  lemma OutsideKnown(s: State, t: State, a: Step)
    requires Known(s) && (a.EnqueuePlain? || a.OutsideWrite?) && OutsideNext(s, t, a)
    ensures KnownJobs(t.tables, t.children) && Extends(s, t)
  {
    if a.EnqueuePlain? { InsertKeepsKnown(s.tables, s.children, a.queue, a.task, a.availableAt); }
  }

  lemma OwnKnown(s: State, t: State, a: Step)
    requires Known(s) && CallbacksAreFinal(s) && PcsMatch(s) && Next(s, t, a)
    ensures KnownJobs(t.tables, t.children) && Extends(s, t)
    ensures Actor(a).Some? && Grows(s.stored, t.stored) ==> KnownPc(t, PcOf(t, a.w))
  {
    hide LocalNext, QueueNext, BatchNext, OutsideNext, Known, KnownJobs, KnownPc, Extends, Grows, PcsMatch,
      CallbacksAreFinal;
    if IsLocal(a) {
      LocalKnown(s, t, a);
    } else if IsQueueStep(a) {
      QueueKnown(s, t, a);
    } else if IsBatchStep(a) {
      BatchKnown(s, t, a);
    } else {
      OutsideKnown(s, t, a);
    }
  }

  lemma KnownKept(s: State, t: State, a: Step)
    requires Known(s) && CallbacksAreFinal(s) && PagesMatch(s) && PcsMatch(s) && Next(s, t, a)
    ensures Known(t)
  {
    OwnKnown(s, t, a);
    StoredGrows(s, t, a);
    OthersStay(s, t, a);
    forall w: WorkerId ensures KnownPc(t, PcOf(t, w)) {
      if Actor(a) != Some(w) {
        assert KnownPc(s, PcOf(s, w));
        PcStays(s, t, PcOf(s, w));
      }
    }
  }

  // ---- The log of a batch ------------------------------------------------------------------------

  /** The step takes one from pending_jobs of batch b. */
  predicate CountsDown(s: State, a: Step, b: BatchId) {
    a.CountDownBatch? && PcOf(s, a.w).Counting? && PcOf(s, a.w).batch == b && CanCountDown(s.tables, b)
  }

  /** The jobs that the first n steps have counted down from batch b, in order. */
  function Log(states: seq<State>, steps: seq<Step>, b: BatchId, n: nat): seq<JobId>
    requires n <= |steps| < |states|
  {
    if n == 0 then [] else
      var s, a, before := states[n - 1], steps[n - 1], Log(states, steps, b, n - 1);
      if CountsDown(s, a, b) then before + [PcOf(s, a.w).id] else before
  }

  /** The log has chunk jobs of the batch, all of them written; every counted job is in it; and it is as long as
      pending_jobs says. */
  ghost predicate Logged(s: State, log: seq<JobId>, b: BatchId) {
    && (b !in s.tables.batches ==> log == [] && ChildrenOf(s.children, b) == {})
    && (b in s.tables.batches ==> s.tables.batches[b].pending + |log| == |ChildrenOf(s.children, b)|)
    && (forall id :: id in log ==> id in ChildrenOf(s.children, b) && ChunkWritten(s, id))
    && (forall id :: id in ChildrenOf(s.children, b) && s.children[id].fate == Counted ==> id in log)
  }

  /** Neither the batch nor its chunk jobs are touched, but for fates other than Counted. */
  ghost predicate BatchStays(s: State, t: State, b: BatchId) {
    && (b in t.tables.batches <==> b in s.tables.batches)
    && (b in s.tables.batches ==> t.tables.batches[b].pending == s.tables.batches[b].pending)
    && ChildrenOf(t.children, b) == ChildrenOf(s.children, b)
    && (forall id :: id in ChildrenOf(s.children, b) && t.children[id].fate == Counted ==>
       s.children[id].fate == Counted)
  }

  lemma StaysLogged(s: State, t: State, log: seq<JobId>, b: BatchId)
    requires Logged(s, log, b) && BatchStays(s, t, b) && Continues(s.children, t.children) && Grows(s.stored, t.stored)
    ensures Logged(t, log, b)
  {
    forall id | id in log ensures ChunkWritten(t, id) {
      assert id in ChildrenOf(s.children, b);
      assert t.children[id].(fate := Live) == s.children[id].(fate := Live);
    }
  }

  lemma CountedIsLogged(s: State, t: State, w: WorkerId, log: seq<JobId>, b: BatchId)
    requires Logged(s, log, b) && KnownPc(s, PcOf(s, w)) && CountedStep(s, t, w) && PcOf(s, w).batch == b
    ensures Logged(t, log + [PcOf(s, w).id], b)
  {
    assert ChildrenOf(t.children, b) == ChildrenOf(s.children, b);
  }

  lemma CountedElsewhere(s: State, t: State, w: WorkerId, b: BatchId)
    requires CountedStep(s, t, w) && PcOf(s, w).batch != b && KnownPc(s, PcOf(s, w))
    ensures BatchStays(s, t, b)
  {
  }

  lemma ChunksAreLogged(s: State, t: State, w: WorkerId, queue: string, now: int, log: seq<JobId>, b: BatchId)
    requires Logged(s, log, b) && IdsIssued(s.tables, s.children) && BatchStep(s, t, w, queue, now)
    requires Grows(s.stored, t.stored) && s.tables.nextBatch !in s.tables.batches
    ensures Logged(t, log, b)
  {
    hide ChunkDone;
    var p, first := PcOf(s, w), s.tables.nextJob;
    BatchInsertedFrame(s.tables, p.page, p.chunks, queue, now);
    BatchContinues(s, t, w, queue, now);
    if b == s.tables.nextBatch {
      forall id ensures id in ChildrenOf(t.children, b) <==> first <= id < first + p.chunks {
        if id in s.children { assert id !in ChildrenOf(s.children, b); }
      }
      Interval(ChildrenOf(t.children, b), first, p.chunks);
    } else {
      assert ChildrenOf(t.children, b) == ChildrenOf(s.children, b);
      StaysLogged(s, t, log, b);
    }
  }

  lemma DeleteStays(s: State, t: State, w: WorkerId, b: BatchId)
    requires DeleteStep(s, t, w)
    ensures BatchStays(s, t, b)
  {
  }

  lemma OtherStepStays(s: State, t: State, a: Step, b: BatchId)
    requires Next(s, t, a) && !a.EnqueueChunks? && !(a.CountDownBatch? && CountedStep(s, t, a.w))
    ensures BatchStays(s, t, b)
  {
    if a.DeleteReserved? {
      DeleteStays(s, t, a.w, b);
    } else if a.CountDownBatch? {
      CountNothing(s, t, a.w);
    } else {
      ChildrenStay(s, t, a);
      if IsLocal(a) {
        LocalFrame(s, t, a);
      } else if IsQueueStep(a) {
        QueueFrame(s, t, a);
      } else if a.FinishBatch? {
        FinishMarks(s, t, a.w, a.now);
      } else if a.AnnounceBatch? {
        AnnounceFrame(s.tables, PcOf(s, a.w).batch, PcOf(s, a.w).queue, a.now);
      } else {
        OutsideFrame(s, t, a);
      }
    }
  }

  lemma LogKept(s: State, t: State, a: Step, log: seq<JobId>, b: BatchId)
    requires Logged(s, log, b) && Known(s) && OnceInv(s) && PagesMatch(s) && Next(s, t, a)
    ensures Logged(t, if CountsDown(s, a, b) then log + [PcOf(s, a.w).id] else log, b)
  {
    StoredGrows(s, t, a);
    ChildrenContinue(s, t, a);
    if a.EnqueueChunks? {
      ChunksAreLogged(s, t, a.w, a.queue, a.now, log, b);
    } else if a.CountDownBatch? && CountedStep(s, t, a.w) {
      assert KnownPc(s, PcOf(s, a.w));
      if PcOf(s, a.w).batch == b {
        CountedIsLogged(s, t, a.w, log, b);
      } else {
        CountedElsewhere(s, t, a.w, b);
        StaysLogged(s, t, log, b);
      }
    } else {
      OtherStepStays(s, t, a, b);
      StaysLogged(s, t, log, b);
    }
  }

  // ---- Over runs ---------------------------------------------------------------------------------

  ghost predicate General(s: State) {
    PagesMatch(s) && PcsMatch(s) && BatchesCover(s) && CallbacksAreFinal(s) && Known(s)
  }

  lemma {:induction false} GeneralAlways(states: seq<State>, steps: seq<Step>, i: nat)
    requires Run(states, steps) && i < |states|
    ensures General(states[i])
  {
    if i > 0 {
      hide Next, PagesMatch, PcsMatch, BatchesCover, CallbacksAreFinal;
      var s, t, a := states[i - 1], states[i], steps[i - 1];
      GeneralAlways(states, steps, i - 1);
      PagesKept(s, t, a);
      PcsKept(s, t, a);
      CoversKept(s, t, a);
      CallbacksKept(s, t, a);
      KnownKept(s, t, a);
    }
  }

  lemma StartLogged(mirror: Table, b: BatchId)
    ensures Logged(Start(mirror), [], b)
  {
    assert ChildrenOf(map[], b) == {};
  }

  lemma {:induction false} LogAlways(states: seq<State>, steps: seq<Step>, b: BatchId, i: nat)
    requires Run(states, steps) && i < |states|
    ensures Logged(states[i], Log(states, steps, b, i), b)
  {
    hide Next, Logged, Known, OnceInv, PagesMatch, PcsMatch, BatchesCover, CallbacksAreFinal, Announcements;
    if i > 0 {
      var s, t, a, log := states[i - 1], states[i], steps[i - 1], Log(states, steps, b, i - 1);
      LogAlways(states, steps, b, i - 1);
      GeneralAlways(states, steps, i - 1);
      FinalizeAtMostOnce(states, steps, i - 1);
      assert Next(s, t, a) && General(s) && OnceInv(s);
      LogKept(s, t, a, log, b);
    } else {
      StartLogged(states[0].mirror, b);
    }
  }

  ghost predicate NoRepeats<T(!new)>(xs: seq<T>) {
    forall i, j :: 0 <= i < j < |xs| ==> xs[i] != xs[j]
  }

  function Elements(xs: seq<JobId>): set<JobId> { set x | x in xs }

  /** A list has as many elements as positions exactly when none is repeated. */
  lemma {:induction false} RepeatsShrink(xs: seq<JobId>)
    ensures |Elements(xs)| <= |xs| && (|Elements(xs)| == |xs| <==> NoRepeats(xs))
  {
    if xs != [] {
      var n := |xs| - 1;
      var init, last := xs[..n], xs[n];
      RepeatsShrink(init);
      assert xs == init + [last];
      if last in init {
        assert Elements(xs) == Elements(init);
        var i :| 0 <= i < n && xs[i] == last;
      } else {
        assert Elements(xs) == Elements(init) + {last};
        assert forall i :: 0 <= i < n ==> xs[i] in init;
      }
    }
  }

  lemma Pigeonhole(xs: seq<JobId>, all: set<JobId>)
    requires Elements(xs) <= all && |xs| == |all|
    ensures Elements(xs) == all <==> NoRepeats(xs)
  {
    RepeatsShrink(xs);
    if |Elements(xs)| == |all| {
      assert all == Elements(xs) + (all - Elements(xs));
    }
  }

  /** Whatever the timing of reclaims: when a batch is announced, all of its chunk jobs have been counted down
      exactly when none was counted down twice. */
  lemma AllCountedIffNoneTwice(states: seq<State>, steps: seq<Step>, i: nat, b: BatchId)
    requires Run(states, steps) && i < |states| && Announcements(states[i], b) > 0
    ensures var log := Log(states, steps, b, i);
      Elements(log) == ChildrenOf(states[i].children, b) <==> NoRepeats(log)
  {
    FinalizeAtMostOnce(states, steps, i);
    LogAlways(states, steps, b, i);
    Pigeonhole(Log(states, steps, b, i), ChildrenOf(states[i].children, b));
  }

  /** And then every chunk of its page has been written. */
  lemma CountedOnceMeansWritten(states: seq<State>, steps: seq<Step>, i: nat, b: BatchId)
    requires Run(states, steps) && i < |states| && Announcements(states[i], b) > 0
    requires NoRepeats(Log(states, steps, b, i))
    ensures FinalizedPage(states[i], b).Some?
    ensures var p := FinalizedPage(states[i], b).value;
      && p in states[i].stored
      && forall c: nat :: 1 <= c <= |states[i].stored[p].parts| ==> ChunkDone(states[i].stored, p, c)
  {
    var s := states[i];
    FinalizeAtMostOnce(states, steps, i);
    GeneralAlways(states, steps, i);
    LogAlways(states, steps, b, i);
    AllCountedIffNoneTwice(states, steps, i, b);
    assert BatchCovers(s.stored, s.children, b, s.tables.batches[b]);
    var p := FinalizedPage(s, b).value;
    forall c: nat | 1 <= c <= |s.stored[p].parts| ensures ChunkDone(s.stored, p, c) {
      assert HasChild(s.children, b, p, c);
      var id :| id in s.children && s.children[id].batch == b && s.children[id].page == p && s.children[id].index == c;
      assert id in ChildrenOf(s.children, b);
      assert id in Log(states, steps, b, i);
    }
  }

  /** Fail-stop is enough for that. */
  lemma FailStopCountsOnce(states: seq<State>, steps: seq<Step>, i: nat, b: BatchId)
    requires FailStopRun(states, steps) && i < |states| && Announcements(states[i], b) > 0
    ensures NoRepeats(Log(states, steps, b, i))
  {
    var s, log := states[i], Log(states, steps, b, i);
    FailedChunkBlocksFinalize(states, steps, i, b);
    LogAlways(states, steps, b, i);
    forall id | id in ChildrenOf(s.children, b) ensures id in Elements(log) {
      assert id !in Owed(s.children, b);
    }
    AllCountedIffNoneTwice(states, steps, i, b);
  }
}
