/** Hydration in fail-stop runs: when the completion job of a batch is enqueued, every chunk of its page has been
    written since the page was stored (internal/queue/worker.go, internal/service/sync/replica_page.go,
    internal/service/sync/listing_mirror.go). */
module PersistHydration {
  import opened Wrappers
  import opened JobTables
  import opened ListingMirror
  import opened ReplicaPages
  import opened PersistProtocol
  import opened PersistAccounting

  // ---- The invariant -----------------------------------------------------------------------------

  type Snapshots = map<PageId, Snapshot>

  ghost predicate ChunkExists(stored: Snapshots, page: PageId, index: nat) {
    page in stored && 1 <= index <= |stored[page].parts|
  }

  ghost predicate ChunkDone(stored: Snapshots, page: PageId, index: nat) {
    ChunkExists(stored, page, index) && ChunkPositions(stored[page].parts, index - 1) <= stored[page].written
  }

  /** A page on file is the page that was stored. */
  ghost predicate PagesMatch(s: State) {
    && (forall p :: p in s.stored ==> p < s.nextPage)
    && (forall p :: p in s.pages ==> p in s.stored && s.pages[p].parts == s.stored[p].parts)
  }

  /** Chunks that left the queue with success have been written. */
  ghost predicate ChildrenMatch(stored: Snapshots, children: map<JobId, Child>) {
    forall id :: id in children ==>
      var c := children[id];
      ChunkExists(stored, c.page, c.index) &&
        (c.fate == Uncounted || c.fate == Counted ==> ChunkDone(stored, c.page, c.index))
  }

  ghost predicate WritingMatches(stored: Snapshots, task: Task, rows: seq<Row>, todo: set<nat>) {
    && task.PersistChunk? && ChunkExists(stored, task.page, task.index)
    && rows == stored[task.page].parts[task.index - 1]
    && Shift(Positions(|rows|) - todo, Offset(stored[task.page].parts, task.index - 1)) <= stored[task.page].written
  }

  ghost predicate PcMatches(stored: Snapshots, p: Pc) {
    match p
    case Stored(r, page, chunks) => !r.job.task.PersistChunk? && page in stored && chunks == |stored[page].parts|
    case Batched(r, _, _) => !r.job.task.PersistChunk?
    case Closed(r) => !r.job.task.PersistChunk?
    case Writing(r, rows, todo) => WritingMatches(stored, r.job.task, rows, todo)
    case Succeeded(r) => r.job.task.PersistChunk? ==> ChunkDone(stored, r.job.task.page, r.job.task.index)
    case _ => true
  }

  ghost predicate PcsMatch(s: State) {
    forall w: WorkerId :: PcMatches(s.stored, PcOf(s, w))
  }

  ghost predicate HasChild(children: map<JobId, Child>, b: BatchId, page: PageId, index: nat) {
    exists id :: id in children && children[id].batch == b && children[id].page == page && children[id].index == index
  }

  ghost predicate BatchCovers(stored: Snapshots, children: map<JobId, Child>, b: BatchId, batch: Batch<Task>) {
    && batch.onComplete.Some? && batch.onComplete.value.task.PersistFinalize? &&
       batch.onComplete.value.task.target.Some?
    && var page := batch.onComplete.value.task.target.value;
    && page in stored
    && forall i: nat :: 1 <= i <= |stored[page].parts| ==> HasChild(children, b, page, i)
  }

  /** A batch has one job for each chunk of the page that its completion job names. */
  ghost predicate BatchesCover(s: State) {
    forall b :: b in s.tables.batches ==> BatchCovers(s.stored, s.children, b, s.tables.batches[b])
  }

  ghost predicate Hydrating(s: State) {
    PagesMatch(s) && ChildrenMatch(s.stored, s.children) && PcsMatch(s) && BatchesCover(s)
  }

  // ---- What only grows ---------------------------------------------------------------------------

  ghost predicate Grows(a: Snapshots, b: Snapshots) {
    forall p :: p in a ==> p in b && b[p].parts == a[p].parts && b[p].base == a[p].base && a[p].written <= b[p].written
  }

  lemma NoteWrittenGrows(stored: Snapshots, task: Task, sub: set<nat>)
    ensures Grows(stored, NoteWritten(stored, task, sub))
  {
  }

  lemma SpawnKeepsPages(s: State, t: State, w: WorkerId)
    requires SpawnStep(s, t, w)
    ensures PagesStay(s, t)
  {
  }

  lemma MoveKeepsPages(s: State, t: State, w: WorkerId, q: Pc)
    requires MoveStep(s, t, w, q)
    ensures PagesStay(s, t)
  {
  }

  /** A status change touches only the page table. */
  ghost predicate OnlyPages(s: State, t: State) {
    && t.nextPage == s.nextPage && t.stored == s.stored && t.mirror == s.mirror
    && forall p :: p in t.pages ==> p in s.pages && t.pages[p].parts == s.pages[p].parts
  }

  lemma MarkProcessingKeepsPages(s: State, t: State, w: WorkerId)
    requires MarkProcessingStep(s, t, w)
    ensures OnlyPages(s, t)
  {
  }

  lemma MarkCompletedKeepsPages(s: State, t: State, w: WorkerId)
    requires MarkCompletedStep(s, t, w)
    ensures OnlyPages(s, t)
  {
  }

  lemma DeletePageKeepsPages(s: State, t: State, w: WorkerId)
    requires DeletePageStep(s, t, w)
    ensures OnlyPages(s, t)
  {
  }

  lemma SetPageKeepsPages(s: State, t: State, w: WorkerId)
    requires SetPageStep(s, t, w)
    ensures OnlyPages(s, t)
  {
    if MarkProcessingStep(s, t, w) {
      MarkProcessingKeepsPages(s, t, w);
    } else if MarkCompletedStep(s, t, w) {
      MarkCompletedKeepsPages(s, t, w);
    } else {
      DeletePageKeepsPages(s, t, w);
    }
  }

  /** Every step but a store and a write leaves the history of the pages as it is. */
  lemma OtherStepsKeepHistory(s: State, t: State, a: Step)
    requires Next(s, t, a) && !a.StoreFetched? && !a.WriteRows?
    ensures t.nextPage == s.nextPage && t.stored == s.stored && (t.mirror == s.mirror || a.OutsideWrite?)
    ensures forall p :: p in t.pages ==> p in s.pages && t.pages[p].parts == s.pages[p].parts
  {
    if IsLocal(a) {
      match a
      case Spawn(w) => SpawnKeepsPages(s, t, w);
      case Move(w, to) => MoveKeepsPages(s, t, w, to);
      case SetPage(w) => SetPageKeepsPages(s, t, w);
    } else {
      PagesFrame(s, t, a);
    }
  }

  lemma WriteNotes(s: State, t: State, w: WorkerId, sub: set<nat>, mirror: Table)
    requires WriteStep(s, t, w, sub, mirror)
    ensures t.stored == NoteWritten(s.stored, PcOf(s, w).r.job.task, sub) && t.pages == s.pages
    ensures t.nextPage == s.nextPage
  {
  }

  lemma StoreGrows(s: State, t: State, w: WorkerId, parts: seq<seq<Row>>)
    requires PagesMatch(s) && StoreStep(s, t, w, parts)
    ensures Grows(s.stored, t.stored)
  {
    assert s.nextPage !in s.stored;
  }

  lemma StoredGrows(s: State, t: State, a: Step)
    requires PagesMatch(s) && Next(s, t, a)
    ensures Grows(s.stored, t.stored)
  {
    if a.WriteRows? {
      WriteNotes(s, t, a.w, a.sub, a.mirror);
      NoteWrittenGrows(s.stored, PcOf(s, a.w).r.job.task, a.sub);
    } else if a.StoreFetched? {
      StoreGrows(s, t, a.w, a.parts);
    } else {
      OtherStepsKeepHistory(s, t, a);
    }
  }

  lemma PcMatchesGrown(a: Snapshots, b: Snapshots, p: Pc)
    requires Grows(a, b) && PcMatches(a, p)
    ensures PcMatches(b, p)
  {
  }

  lemma ChildrenMatchGrown(a: Snapshots, b: Snapshots, children: map<JobId, Child>)
    requires Grows(a, b) && ChildrenMatch(a, children)
    ensures ChildrenMatch(b, children)
  {
  }

  // ---- Pages -------------------------------------------------------------------------------------

  lemma StoreKeepsMatch(s: State, t: State, w: WorkerId, parts: seq<seq<Row>>)
    requires PagesMatch(s) && StoreStep(s, t, w, parts)
    ensures PagesMatch(t)
  {
  }

  lemma WriteKeepsMatch(s: State, t: State, w: WorkerId, sub: set<nat>, mirror: Table)
    requires PagesMatch(s) && WriteStep(s, t, w, sub, mirror)
    ensures PagesMatch(t)
  {
    WriteNotes(s, t, w, sub, mirror);
    NoteWrittenGrows(s.stored, PcOf(s, w).r.job.task, sub);
  }

  lemma PagesKept(s: State, t: State, a: Step)
    requires PagesMatch(s) && Next(s, t, a)
    ensures PagesMatch(t)
  {
    if a.WriteRows? {
      WriteKeepsMatch(s, t, a.w, a.sub, a.mirror);
    } else if a.StoreFetched? {
      StoreKeepsMatch(s, t, a.w, a.parts);
    } else {
      OtherStepsKeepHistory(s, t, a);
    }
  }

  // ---- Workers -----------------------------------------------------------------------------------

  lemma MoveKeepsPc(s: State, p: Pc, q: Pc)
    requires PagesMatch(s) && PcMatches(s.stored, p) && Moves(s, p, q)
    ensures PcMatches(s.stored, q)
  {
    if q.Succeeded? && p.Writing? {
      var snap, i := s.stored[p.r.job.task.page], p.r.job.task.index - 1;
      assert Positions(|p.rows|) - p.todo == Positions(|p.rows|);
      ShiftedPositions(snap.parts, i);
    } else if q.Writing? {
      assert Positions(|q.rows|) - q.todo == {};
    }
  }

  lemma WriteKeepsPc(stored: Snapshots, task: Task, rows: seq<Row>, todo: set<nat>, sub: set<nat>)
    requires WritingMatches(stored, task, rows, todo)
    ensures WritingMatches(NoteWritten(stored, task, sub), task, rows, todo - sub)
  {
    var off := Offset(stored[task.page].parts, task.index - 1);
    var positions := Positions(|rows|);
    forall k | k in Shift(positions - (todo - sub), off)
      ensures k in Shift(positions - todo, off) + Shift(sub, off)
    {
      var j :| j in positions - (todo - sub) && j + off == k;
      assert j in positions - todo || j in sub;
    }
  }

  lemma SetPageKeepsPc(s: State, t: State, w: WorkerId)
    requires PcMatches(s.stored, PcOf(s, w)) && SetPageStep(s, t, w)
    ensures PcMatches(t.stored, PcOf(t, w))
  {
    SetPageMoves(s, t, w);
  }

  /** The job whose worker marks a page is not a chunk job. */
  ghost predicate Finalizes(p: Pc, q: Pc) {
    && (p.Batched? || (Held(p).Some? && Held(p).value.job.task.PersistFinalize?))
    && (q.Succeeded? || q.Closed?) && Held(q) == Held(p)
  }

  lemma MarkProcessingMoves(s: State, t: State, w: WorkerId)
    requires MarkProcessingStep(s, t, w)
    ensures Finalizes(PcOf(s, w), PcOf(t, w))
  {
  }

  lemma MarkCompletedMoves(s: State, t: State, w: WorkerId)
    requires MarkCompletedStep(s, t, w)
    ensures Finalizes(PcOf(s, w), PcOf(t, w))
  {
  }

  lemma DeletePageMoves(s: State, t: State, w: WorkerId)
    requires DeletePageStep(s, t, w)
    ensures Finalizes(PcOf(s, w), PcOf(t, w))
  {
  }

  lemma SetPageMoves(s: State, t: State, w: WorkerId)
    requires SetPageStep(s, t, w)
    ensures Finalizes(PcOf(s, w), PcOf(t, w))
  {
    if MarkProcessingStep(s, t, w) {
      MarkProcessingMoves(s, t, w);
    } else if MarkCompletedStep(s, t, w) {
      MarkCompletedMoves(s, t, w);
    } else {
      DeletePageMoves(s, t, w);
    }
  }

  /** Nothing is claimed of the chunk by a worker in this state. */
  ghost predicate Unclaimed(p: Pc) { !p.Stored? && !p.Batched? && !p.Writing? && !p.Succeeded? && !p.Closed? }

  lemma QueueUnclaimed(s: State, t: State, a: Step)
    requires IsQueueStep(a) && QueueNext(s, t, a)
    ensures Unclaimed(PcOf(t, a.w))
  {
  }

  lemma BatchedPc(s: State, t: State, w: WorkerId, queue: string, now: int)
    requires BatchStep(s, t, w, queue, now) && PcMatches(s.stored, PcOf(s, w))
    ensures PcMatches(t.stored, PcOf(t, w))
  {
  }

  lemma CountedUnclaimed(s: State, t: State, w: WorkerId)
    requires CountedStep(s, t, w)
    ensures Unclaimed(PcOf(t, w))
  {
    assert PcOf(t, w).Announcing? || PcOf(t, w).Idle?;
  }

  lemma CountDownUnclaimed(s: State, t: State, w: WorkerId)
    requires CountDownStep(s, t, w)
    ensures Unclaimed(PcOf(t, w))
  {
    if CountedStep(s, t, w) { CountedUnclaimed(s, t, w); } else { assert PcOf(t, w).Idle?; }
  }

  lemma FinishUnclaimed(s: State, t: State, w: WorkerId, now: int)
    requires FinishStep(s, t, w, now)
    ensures Unclaimed(PcOf(t, w))
  {
  }

  lemma AnnounceUnclaimed(s: State, t: State, w: WorkerId, now: int)
    requires AnnounceStep(s, t, w, now)
    ensures Unclaimed(PcOf(t, w))
  {
  }

  lemma StoredPc(s: State, t: State, w: WorkerId, parts: seq<seq<Row>>)
    requires StoreStep(s, t, w, parts)
    ensures PcMatches(t.stored, PcOf(t, w))
  {
  }

  lemma WrittenPc(s: State, t: State, w: WorkerId, sub: set<nat>, mirror: Table)
    requires WriteStep(s, t, w, sub, mirror) && PcMatches(s.stored, PcOf(s, w))
    ensures PcMatches(t.stored, PcOf(t, w))
  {
    var p := PcOf(s, w);
    WriteKeepsPc(s.stored, p.r.job.task, p.rows, p.todo, sub);
  }

  lemma MovedPc(s: State, t: State, w: WorkerId, q: Pc)
    requires PagesMatch(s) && MoveStep(s, t, w, q) && PcMatches(s.stored, PcOf(s, w))
    ensures PcMatches(t.stored, PcOf(t, w))
  {
    MoveKeepsPc(s, PcOf(s, w), q);
  }

  lemma LocalPcKept(s: State, t: State, a: Step)
    requires PagesMatch(s) && IsLocal(a) && LocalNext(s, t, a) && PcMatches(s.stored, PcOf(s, a.w))
    ensures PcMatches(t.stored, PcOf(t, a.w))
  {
    match a
    case Spawn(w) =>
    case Move(w, to) => MovedPc(s, t, w, to);
    case StoreFetched(w, parts) => StoredPc(s, t, w, parts);
    case SetPage(w) => SetPageKeepsPc(s, t, w);
    case WriteRows(w, sub, mirror) => WrittenPc(s, t, w, sub, mirror);
  }

  lemma BatchPcKept(s: State, t: State, a: Step)
    requires IsBatchStep(a) && BatchNext(s, t, a) && PcMatches(s.stored, PcOf(s, a.w))
    ensures PcMatches(t.stored, PcOf(t, a.w))
  {
    match a
    case EnqueueChunks(w, queue, now) => BatchedPc(s, t, w, queue, now);
    case CountDownBatch(w) => CountDownUnclaimed(s, t, w);
    case FinishBatch(w, now) => FinishUnclaimed(s, t, w, now);
    case AnnounceBatch(w, now) => AnnounceUnclaimed(s, t, w, now);
  }

  lemma OwnPcKept(s: State, t: State, a: Step)
    requires PagesMatch(s) && Next(s, t, a) && Actor(a).Some? && PcMatches(s.stored, PcOf(s, a.w))
    ensures PcMatches(t.stored, PcOf(t, a.w))
  {
    if IsLocal(a) {
      LocalPcKept(s, t, a);
    } else if IsQueueStep(a) {
      QueueUnclaimed(s, t, a);
    } else {
      BatchPcKept(s, t, a);
    }
  }

  lemma PcsKept(s: State, t: State, a: Step)
    requires PagesMatch(s) && PcsMatch(s) && Next(s, t, a)
    ensures PcsMatch(t)
  {
    StoredGrows(s, t, a);
    OthersStay(s, t, a);
    forall w: WorkerId ensures PcMatches(t.stored, PcOf(t, w)) {
      assert PcMatches(s.stored, PcOf(s, w));
      if Actor(a) == Some(w) {
        OwnPcKept(s, t, a);
      } else {
        PcMatchesGrown(s.stored, t.stored, PcOf(s, w));
      }
    }
  }

  // ---- Chunk jobs --------------------------------------------------------------------------------

  lemma DeleteKeepsChildren(s: State, t: State, w: WorkerId)
    requires Accounted(s) && ChildrenMatch(s.stored, s.children) && PcMatches(s.stored, PcOf(s, w))
    requires DeleteStep(s, t, w)
    ensures ChildrenMatch(t.stored, t.children)
  {
    var r := PcOf(s, w).r;
    assert Held(PcOf(s, w)) == Some(r);
    assert Holds(s.tables, r);
    if r.id in s.children {
      assert ChildJob(s.tables.jobs[r.id], s.children[r.id]);
    }
  }

  lemma CountDownKeepsChildren(s: State, t: State, w: WorkerId)
    requires CountersMatch(s) && ChildrenMatch(s.stored, s.children) && CountDownStep(s, t, w)
    ensures ChildrenMatch(t.stored, t.children)
  {
    assert Counts(s.children, PcOf(s, w));
  }

  lemma BatchKeepsChildren(s: State, t: State, w: WorkerId, queue: string, now: int)
    requires JobsMatch(s.tables, s.children) && ChildrenMatch(s.stored, s.children)
    requires PcMatches(s.stored, PcOf(s, w)) && BatchStep(s, t, w, queue, now)
    ensures ChildrenMatch(t.stored, t.children)
  {
    assert forall id :: id in s.children ==> t.children[id] == s.children[id];
  }

  lemma QueueKeepsChildren(s: State, t: State, a: Step)
    requires IsQueueStep(a) && QueueNext(s, t, a) && !a.DeleteReserved?
    ensures t.children == s.children
  {
  }

  lemma AnnounceStepKeepsChildren(s: State, t: State, w: WorkerId, now: int)
    requires AnnounceStep(s, t, w, now)
    ensures t.children == s.children
  {
  }

  lemma FinishStepKeepsChildren(s: State, t: State, w: WorkerId, now: int)
    requires FinishStep(s, t, w, now)
    ensures t.children == s.children
  {
  }

  /** Only three kinds of step touch the history of the chunk jobs. */
  lemma ChildrenStay(s: State, t: State, a: Step)
    requires Next(s, t, a) && !a.DeleteReserved? && !a.CountDownBatch? && !a.EnqueueChunks?
    ensures t.children == s.children
  {
    if IsLocal(a) {
      LocalFrame(s, t, a);
    } else if IsQueueStep(a) {
      QueueKeepsChildren(s, t, a);
    } else if a.FinishBatch? {
      FinishStepKeepsChildren(s, t, a.w, a.now);
    } else if a.AnnounceBatch? {
      AnnounceStepKeepsChildren(s, t, a.w, a.now);
    } else {
      OutsideFrame(s, t, a);
    }
  }

  lemma ChildrenKept(s: State, t: State, a: Step)
    requires Accounted(s) && Hydrating(s) && Next(s, t, a)
    ensures ChildrenMatch(t.stored, t.children)
  {
    if a.DeleteReserved? {
      assert PcMatches(s.stored, PcOf(s, a.w));
      DeleteKeepsChildren(s, t, a.w);
    } else if a.CountDownBatch? {
      CountDownKeepsChildren(s, t, a.w);
    } else if a.EnqueueChunks? {
      assert PcMatches(s.stored, PcOf(s, a.w));
      BatchKeepsChildren(s, t, a.w, a.queue, a.now);
    } else {
      StoredGrows(s, t, a);
      ChildrenStay(s, t, a);
      ChildrenMatchGrown(s.stored, t.stored, s.children);
    }
  }

  /** A chunk job keeps its batch, page and index. */
  ghost predicate Continues(a: map<JobId, Child>, b: map<JobId, Child>) {
    forall id :: id in a ==> id in b && b[id].(fate := Live) == a[id].(fate := Live)
  }

  lemma SetFateContinues(children: map<JobId, Child>, id: JobId, fate: Fate)
    ensures Continues(children, SetFate(children, id, fate))
  {
  }

  lemma DeleteContinues(s: State, t: State, w: WorkerId)
    requires DeleteStep(s, t, w)
    ensures Continues(s.children, t.children)
  {
    SetFateContinues(s.children, PcOf(s, w).r.id, if PcOf(s, w).Succeeded? then Uncounted else FailedOut);
  }

  lemma CountDownContinues(s: State, t: State, w: WorkerId)
    requires CountDownStep(s, t, w)
    ensures Continues(s.children, t.children)
  {
    SetFateContinues(s.children, PcOf(s, w).id, Counted);
  }

  lemma BatchContinues(s: State, t: State, w: WorkerId, queue: string, now: int)
    requires IdsIssued(s.tables, s.children) && BatchStep(s, t, w, queue, now)
    ensures Continues(s.children, t.children)
  {
    NewChildrenAreLive(s, t, w, queue, now);
  }

  lemma ChildrenContinue(s: State, t: State, a: Step)
    requires IdsIssued(s.tables, s.children) && Next(s, t, a)
    ensures Continues(s.children, t.children)
  {
    if a.DeleteReserved? {
      DeleteContinues(s, t, a.w);
    } else if a.CountDownBatch? {
      CountDownContinues(s, t, a.w);
    } else if a.EnqueueChunks? {
      BatchContinues(s, t, a.w, a.queue, a.now);
    } else {
      ChildrenStay(s, t, a);
    }
  }

  lemma CoversGrown(a: Snapshots, b: Snapshots, children: map<JobId, Child>, more: map<JobId, Child>,
                    id: BatchId, batch: Batch<Task>, later: Batch<Task>)
    requires Grows(a, b) && Continues(children, more) && later.onComplete == batch.onComplete
    requires BatchCovers(a, children, id, batch)
    ensures BatchCovers(b, more, id, later)
  {
    var page := batch.onComplete.value.task.target.value;
    forall i: nat | 1 <= i <= |a[page].parts| ensures HasChild(more, id, page, i) {
      assert HasChild(children, id, page, i);
    }
  }

  lemma NewBatchCovers(s: State, t: State, w: WorkerId, queue: string, now: int)
    requires PcMatches(s.stored, PcOf(s, w)) && BatchStep(s, t, w, queue, now)
    ensures s.tables.nextBatch in t.tables.batches
    ensures BatchCovers(t.stored, t.children, s.tables.nextBatch, t.tables.batches[s.tables.nextBatch])
  {
    var p, b, first := PcOf(s, w), s.tables.nextBatch, s.tables.nextJob;
    BatchInsertedFrame(s.tables, p.page, p.chunks, queue, now);
    forall i: nat | 1 <= i <= p.chunks ensures HasChild(t.children, b, p.page, i) {
      assert first + i - 1 in NewChildren(first, p.chunks, b, p.page);
      assert t.children[first + i - 1] == Child(b, p.page, i, Live);
    }
  }

  /** The batches of u but for one were batches of t, with the same completion job. */
  ghost predicate SameBatches(t: Tables<Task>, u: Tables<Task>, added: Option<BatchId>) {
    forall b :: b in u.batches && Some(b) != added ==>
      b in t.batches && u.batches[b].onComplete == t.batches[b].onComplete
  }

  lemma ChunksAddBatch(s: State, t: State, w: WorkerId, queue: string, now: int)
    requires BatchStep(s, t, w, queue, now)
    ensures SameBatches(s.tables, t.tables, Some(s.tables.nextBatch))
  {
    BatchInsertedFrame(s.tables, PcOf(s, w).page, PcOf(s, w).chunks, queue, now);
  }

  lemma CountDownSameBatches(s: State, t: State, w: WorkerId)
    requires CountDownStep(s, t, w)
    ensures SameBatches(s.tables, t.tables, None)
  {
  }

  lemma FinishSameBatches(s: State, t: State, w: WorkerId, now: int)
    requires FinishStep(s, t, w, now)
    ensures SameBatches(s.tables, t.tables, None)
  {
  }

  lemma AnnounceSameBatches(s: State, t: State, w: WorkerId, now: int)
    requires AnnounceStep(s, t, w, now)
    ensures SameBatches(s.tables, t.tables, None)
  {
    AnnounceFrame(s.tables, PcOf(s, w).batch, PcOf(s, w).queue, now);
  }

  /** A batch keeps its completion job, and only EnqueueBatch adds one. */
  lemma BatchesContinue(s: State, t: State, a: Step)
    requires Next(s, t, a)
    ensures SameBatches(s.tables, t.tables, if a.EnqueueChunks? then Some(s.tables.nextBatch) else None)
  {
    if IsLocal(a) {
      LocalFrame(s, t, a);
    } else if IsQueueStep(a) {
      QueueFrame(s, t, a);
    } else if IsBatchStep(a) {
      match a
      case EnqueueChunks(w, queue, now) => ChunksAddBatch(s, t, w, queue, now);
      case CountDownBatch(w) => CountDownSameBatches(s, t, w);
      case FinishBatch(w, now) => FinishSameBatches(s, t, w, now);
      case AnnounceBatch(w, now) => AnnounceSameBatches(s, t, w, now);
    } else {
      OutsideFrame(s, t, a);
    }
  }

  lemma CoversKept(s: State, t: State, a: Step)
    requires PagesMatch(s) && PcsMatch(s) && BatchesCover(s) && IdsIssued(s.tables, s.children) && Next(s, t, a)
    ensures BatchesCover(t)
  {
    StoredGrows(s, t, a);
    ChildrenContinue(s, t, a);
    BatchesContinue(s, t, a);
    forall b | b in t.tables.batches ensures BatchCovers(t.stored, t.children, b, t.tables.batches[b]) {
      if a.EnqueueChunks? && b == s.tables.nextBatch {
        assert PcMatches(s.stored, PcOf(s, a.w));
        NewBatchCovers(s, t, a.w, a.queue, a.now);
      } else {
        CoversGrown(s.stored, t.stored, s.children, t.children, b, s.tables.batches[b], t.tables.batches[b]);
      }
    }
  }

  // ---- Every chunk before finalize ---------------------------------------------------------------

  lemma StartHydrating(mirror: Table)
    ensures Hydrating(Start(mirror))
  {
  }

  lemma AccountedIdsIssued(s: State)
    requires Accounted(s)
    ensures IdsIssued(s.tables, s.children)
  {
  }

  lemma HydratingKept(s: State, t: State, a: Step)
    requires Accounted(s) && Hydrating(s) && Next(s, t, a)
    ensures Hydrating(t)
  {
    hide Next, Accounted, IdsIssued, PagesMatch, PcsMatch, ChildrenMatch, BatchesCover;
    AccountedIdsIssued(s);
    PagesKept(s, t, a);
    PcsKept(s, t, a);
    ChildrenKept(s, t, a);
    CoversKept(s, t, a);
  }

  lemma {:induction false} HydratingAlways(states: seq<State>, steps: seq<Step>, i: nat)
    requires FailStopRun(states, steps) && i < |states|
    ensures Hydrating(states[i])
  {
    hide Next, Accounted, Hydrating, FailStop, CallbacksAreFinal;
    if i > 0 {
      HydratingAlways(states, steps, i - 1);
      AccountedAlways(states, steps, i - 1);
      HydratingKept(states[i - 1], states[i], steps[i - 1]);
    } else {
      StartHydrating(states[0].mirror);
    }
  }

  /** The page that the completion job of an announced batch finalizes. */
  function FinalizedPage(s: State, b: BatchId): Option<PageId> {
    if b in s.tables.batches && s.tables.batches[b].onComplete.Some? &&
      s.tables.batches[b].onComplete.value.task.PersistFinalize?
    then s.tables.batches[b].onComplete.value.task.target else None
  }

  /** In every fail-stop run, once a batch's completion job has been enqueued every chunk of its page has
      been written to the mirror since the page was stored. */
  lemma FinalizeAfterEveryChunk(states: seq<State>, steps: seq<Step>, i: nat, b: BatchId)
    requires FailStopRun(states, steps) && i < |states| && Announcements(states[i], b) > 0
    ensures FinalizedPage(states[i], b).Some?
    ensures var p := FinalizedPage(states[i], b).value;
      && p in states[i].stored
      && forall c: nat :: 1 <= c <= |states[i].stored[p].parts| ==> ChunkDone(states[i].stored, p, c)
  {
    var s := states[i];
    HydratingAlways(states, steps, i);
    FinalizeAtMostOnce(states, steps, i);
    FailedChunkBlocksFinalize(states, steps, i, b);
    assert BatchCovers(s.stored, s.children, b, s.tables.batches[b]);
    var p := FinalizedPage(s, b).value;
    forall c: nat | 1 <= c <= |s.stored[p].parts| ensures ChunkDone(s.stored, p, c) {
      assert HasChild(s.children, b, p, c);
      var id :| id in s.children && s.children[id].batch == b && s.children[id].page == p && s.children[id].index == c;
      assert id !in Owed(s.children, b);
    }
  }

  // ---- The page in the mirror --------------------------------------------------------------------

  function PageRows(s: State, p: PageId): seq<Row> {
    if p in s.stored then Flatten(s.stored[p].parts) else []
  }

  ghost predicate SameOn(rows: seq<Row>, a: Table, b: Table) {
    forall i :: 0 <= i < |rows| && Writes(rows[i]) ==> Get(a, RowKey(rows[i])) == Get(b, RowKey(rows[i]))
  }

  predicate WritesPage(s: State, a: Step, p: PageId) {
    a.WriteRows? && PcOf(s, a.w).Writing? && PcOf(s, a.w).r.job.task.PersistChunk? && PcOf(s, a.w).r.job.task.page == p
  }

  /** Nobody but the page's own chunk jobs changes the page's listings. */
  ghost predicate Undisturbed(s: State, t: State, a: Step, p: PageId) {
    !WritesPage(s, a, p) ==> SameOn(PageRows(s, p), s.mirror, t.mirror)
  }

  lemma {:induction false} PagesAlways(states: seq<State>, steps: seq<Step>, i: nat)
    requires Run(states, steps) && i < |states|
    ensures PagesMatch(states[i])
  {
    if i > 0 {
      PagesAlways(states, steps, i - 1);
      PagesKept(states[i - 1], states[i], steps[i - 1]);
    }
  }

  /** A page's history is what the fetch job stored, with the mirror of that moment. */
  lemma {:induction false} SnapshotOrigin(states: seq<State>, steps: seq<Step>, p: PageId, i: nat) returns (j: nat)
    requires Run(states, steps) && i < |states| && p in states[i].stored
    ensures j < i && steps[j].StoreFetched? && states[j].nextPage == p
    ensures states[i].stored[p].parts == steps[j].parts && states[i].stored[p].base == states[j].mirror
  {
    PagesAlways(states, steps, i - 1);
    var s, t, a := states[i - 1], states[i], steps[i - 1];
    assert Next(s, t, a);
    if p in s.stored {
      j := SnapshotOrigin(states, steps, p, i - 1);
      SnapshotKept(s, t, a, p);
    } else {
      j := i - 1;
      StoredBy(s, t, a, p);
    }
  }

  lemma SnapshotKept(s: State, t: State, a: Step, p: PageId)
    requires PagesMatch(s) && Next(s, t, a) && p in s.stored
    ensures p in t.stored && t.stored[p].parts == s.stored[p].parts && t.stored[p].base == s.stored[p].base
  {
    StoredGrows(s, t, a);
  }

  lemma {:induction false} SnapshotStays(states: seq<State>, steps: seq<Step>, p: PageId, i: nat, j: nat)
    requires Run(states, steps) && i <= j < |states| && p in states[i].stored
    ensures p in states[j].stored && states[j].stored[p].parts == states[i].stored[p].parts
    ensures states[j].stored[p].base == states[i].stored[p].base
  {
    hide Next, PagesMatch;
    if i < j {
      SnapshotStays(states, steps, p, i, j - 1);
      PagesAlways(states, steps, j - 1);
      SnapshotKept(states[j - 1], states[j], steps[j - 1], p);
    }
  }

  lemma StoredBy(s: State, t: State, a: Step, p: PageId)
    requires Next(s, t, a) && p !in s.stored && p in t.stored
    ensures a.StoreFetched? && s.nextPage == p && t.stored[p].parts == a.parts && t.stored[p].base == s.mirror
  {
    if a.StoreFetched? {
      StoresPage(s, t, a.w, a.parts);
    } else if a.WriteRows? {
      WriteNotes(s, t, a.w, a.sub, a.mirror);
    } else {
      OtherStepsKeepHistory(s, t, a);
    }
  }

  lemma StoresPage(s: State, t: State, w: WorkerId, parts: seq<seq<Row>>)
    requires StoreStep(s, t, w, parts)
    ensures t.stored == s.stored[s.nextPage := Snapshot(parts, s.mirror, {})]
  {
  }
}
