/** A page may hold a listing many times, and its chunks are hydrated in any order, in parts and again. What its
    listings are when its completion job is enqueued (internal/queue/worker.go,
    internal/service/sync/replica_page.go, internal/service/sync/listing_mirror.go). */
module PersistSettled {
  import opened Wrappers
  import opened JobTables
  import opened ListingMirror
  import opened ListingMirrorOrder
  import opened ListingMirrorWriting
  import opened ReplicaPages
  import opened ReplicaPageOrder
  import opened PersistProtocol
  import opened PersistAccounting
  import opened PersistHydration
  import opened PersistGuard

  // ---- Calls go in order -------------------------------------------------------------------------

  ghost predicate OrderlyCall(p: Pc) { p.Writing? ==> Orderly(p.rows, p.todo) }

  ghost predicate OrderlyCalls(s: State) {
    forall w: WorkerId :: OrderlyCall(PcOf(s, w))
  }

  lemma MoveKeepsCall(s: State, p: Pc, q: Pc)
    requires Moves(s, p, q)
    ensures OrderlyCall(q)
  {
  }

  lemma WriteKeepsCall(s: State, t: State, w: WorkerId, sub: set<nat>, mirror: Table)
    requires OrderlyCall(PcOf(s, w)) && WriteStep(s, t, w, sub, mirror)
    ensures OrderlyCall(PcOf(t, w))
  {
    var p := PcOf(s, w);
    CommitsKeepOrder(s.mirror, p.rows, p.todo, sub, mirror);
  }

  lemma SetPageKeepsCall(s: State, t: State, w: WorkerId)
    requires SetPageStep(s, t, w)
    ensures OrderlyCall(PcOf(t, w))
  {
    SetPageMoves(s, t, w);
    hide SetPageStep;
  }

  lemma LocalKeepsCall(s: State, t: State, a: Step)
    requires IsLocal(a) && LocalNext(s, t, a) && OrderlyCall(PcOf(s, a.w))
    ensures OrderlyCall(PcOf(t, a.w))
  {
    match a
    case Spawn(w) =>
    case Move(w, to) => MoveKeepsCall(s, PcOf(s, w), to);
    case StoreFetched(w, parts) =>
    case SetPage(w) => SetPageKeepsCall(s, t, w);
    case WriteRows(w, sub, mirror) => WriteKeepsCall(s, t, w, sub, mirror);
  }

  lemma BatchStepWaits(s: State, t: State, a: Step)
    requires IsBatchStep(a) && BatchNext(s, t, a)
    ensures !PcOf(t, a.w).Writing? && !PcOf(t, a.w).Succeeded?
  {
    match a
    case EnqueueChunks(w, queue, now) =>
    case CountDownBatch(w) => CountDownUnclaimed(s, t, w);
    case FinishBatch(w, now) => FinishUnclaimed(s, t, w, now);
    case AnnounceBatch(w, now) => AnnounceUnclaimed(s, t, w, now);
  }

  lemma CallsKept(s: State, t: State, a: Step)
    requires OrderlyCalls(s) && Next(s, t, a)
    ensures OrderlyCalls(t)
  {
    hide OrderlyCall, LocalNext, QueueNext, BatchNext;
    OthersStay(s, t, a);
    forall w: WorkerId ensures OrderlyCall(PcOf(t, w)) {
      assert OrderlyCall(PcOf(s, w));
      if Actor(a) == Some(w) { OwnCallKept(s, t, a); }
    }
  }

  lemma OwnCallKept(s: State, t: State, a: Step)
    requires Next(s, t, a) && Actor(a).Some? && OrderlyCall(PcOf(s, a.w))
    ensures OrderlyCall(PcOf(t, a.w))
  {
    hide LocalNext, QueueNext, BatchNext;
    if IsLocal(a) {
      LocalKeepsCall(s, t, a);
    } else if IsQueueStep(a) {
      QueueUnclaimed(s, t, a);
    } else {
      BatchStepWaits(s, t, a);
    }
  }

  lemma {:induction false} CallsAlways(states: seq<State>, steps: seq<Step>, i: nat)
    requires Run(states, steps) && i < |states|
    ensures OrderlyCalls(states[i])
  {
    hide Next, OrderlyCall;
    if i > 0 {
      CallsAlways(states, steps, i - 1);
      CallsKept(states[i - 1], states[i], steps[i - 1]);
    } else {
      assert forall w: WorkerId :: OrderlyCall(PcOf(states[0], w)) by { StartCalls(states[0].mirror); }
    }
  }

  lemma StartCalls(mirror: Table)
    ensures OrderlyCalls(Start(mirror))
  {
  }

  // ---- The invariant -----------------------------------------------------------------------------

  /** What aspect f of listing k is when the page is applied row by row to the mirror of the moment it was stored. */
  function Target(snap: Snapshot, k: Key, f: Aspect): Value {
    View(ListingMirrorOrder.RowsAt(Get(snap.base, k), Flatten(snap.parts), k), f)
  }

  ghost predicate AspectApplied(s: State, p: PageId, k: Key, f: Aspect)
    requires p in s.stored
  {
    View(Get(s.mirror, k), f) == Target(s.stored[p], k, f)
  }

  /** A worker that holds the job has still to write the row that decides the aspect. */
  ghost predicate Waits(p: Pc, id: JobId, rows: seq<Row>, k: Key, f: Aspect) {
    Held(p).Some? && Held(p).value.id == id ==> !p.Succeeded? && (p.Writing? ==> Unsaid(rows, k, f, p.todo))
  }

  /** The rows of the chunk job. */
  ghost predicate RowsOfChild(s: State, p: PageId, id: JobId, rows: seq<Row>) {
    && id in s.children && s.children[id].page == p && ChunkExists(s.stored, p, s.children[id].index)
    && rows == s.stored[p].parts[s.children[id].index - 1]
  }

  /** A chunk job of the page that has something to say and has not been counted as done. */
  ghost predicate PendingChunk(s: State, p: PageId, k: Key, f: Aspect, id: JobId, rows: seq<Row>) {
    && RowsOfChild(s, p, id, rows) && (s.children[id].fate.Live? || s.children[id].fate.FailedOut?)
    && (exists q :: Ends(rows, k, f, q))
    && forall w: WorkerId :: Waits(PcOf(s, w), id, rows, k, f)
  }

  ghost predicate NoChunks(s: State, p: PageId) {
    forall id :: id in s.children ==> s.children[id].page != p
  }

  ghost predicate Spoken(parts: seq<seq<Row>>, k: Key, f: Aspect) {
    exists c: nat, q :: c < |parts| && Ends(parts[c], k, f, q)
  }

  /** The aspect is as the page says, or a chunk that speaks of it is still to be written. */
  ghost predicate Leading(s: State, p: PageId, k: Key, f: Aspect) {
    p in s.stored ==>
      || AspectApplied(s, p, k, f)
      || (NoChunks(s, p) && Spoken(s.stored[p].parts, k, f))
      || exists id, rows :: PendingChunk(s, p, k, f, id, rows)
  }

  /** The page's listing k is to be judged by aspect f, and the page settles it. */
  ghost predicate SettledAspect(parts: seq<seq<Row>>, k: Key, f: Aspect) {
    && KeySettles(parts, k) && !Foreign(k, Flatten(parts))
    && if NeverRemoved(Flatten(parts), k) then !f.Presence? && Flagged(Records(Flatten(parts)), k, f) else f.Presence?
  }

  // ---- Storing and enqueuing ---------------------------------------------------------------------

  lemma UnspokenTarget(snap: Snapshot, k: Key, f: Aspect)
    requires SettledAspect(snap.parts, k, f) && !Spoken(snap.parts, k, f)
    ensures Target(snap, k, f) == View(Get(snap.base, k), f)
  {
    var all := Flatten(snap.parts);
    if f.Presence? {
      var c, q := SomeChunkRemoves(snap.parts, k);
    } else {
      PageView(Get(snap.base, k), all, k, f);
      if Shown(Records(all), k, f).Some? {
        var c, q := SomeChunkSpeaks(snap.parts, k, f);
      }
    }
  }

  lemma NewPageHasNoChunks(s: State)
    requires PagesMatch(s) && ChildrenMatch(s.stored, s.children)
    ensures NoChunks(s, s.nextPage)
  {
  }

  lemma StoreLeads(s: State, t: State, w: WorkerId, parts: seq<seq<Row>>, k: Key, f: Aspect)
    requires PagesMatch(s) && ChildrenMatch(s.stored, s.children) && StoreStep(s, t, w, parts)
    requires SettledAspect(parts, k, f)
    ensures Leading(t, s.nextPage, k, f)
  {
    StoresPage(s, t, w, parts);
    NewPageHasNoChunks(s);
    if !Spoken(parts, k, f) { UnspokenTarget(t.stored[s.nextPage], k, f); }
  }

  lemma HeldIsIssued(s: State, w: WorkerId)
    requires Accounted(s) && Held(PcOf(s, w)).Some?
    ensures Held(PcOf(s, w)).value.id < s.tables.nextJob
  {
    assert Holds(s.tables, Held(PcOf(s, w)).value);
  }

  lemma NewChild(s: State, t: State, w: WorkerId, queue: string, now: int, c: nat)
    requires BatchStep(s, t, w, queue, now) && c < PcOf(s, w).chunks
    ensures s.tables.nextJob + c in t.children
    ensures t.children[s.tables.nextJob + c] == Child(s.tables.nextBatch, PcOf(s, w).page, c + 1, Live)
  {
    var p, first := PcOf(s, w), s.tables.nextJob;
    assert first + c in NewChildren(first, p.chunks, s.tables.nextBatch, p.page);
  }

  /** The batch of the page has a job for the chunk that speaks, and nobody holds it yet. */
  lemma EnqueueLeads(s: State, t: State, w: WorkerId, queue: string, now: int, p: PageId, k: Key, f: Aspect)
    requires Accounted(s) && PcMatches(s.stored, PcOf(s, w)) && BatchStep(s, t, w, queue, now) && PcOf(s, w).page == p
    requires p in s.stored && Spoken(s.stored[p].parts, k, f)
    ensures t.stored == s.stored && exists id, rows :: PendingChunk(t, p, k, f, id, rows)
  {
    var c: nat, q :| c < |s.stored[p].parts| && Ends(s.stored[p].parts[c], k, f, q);
    var id, rows := s.tables.nextJob + c, s.stored[p].parts[c];
    NewChild(s, t, w, queue, now, c);
    ChunksMove(s, t, w, queue, now);
    forall v: WorkerId ensures Waits(PcOf(t, v), id, rows, k, f) {
      if v != w && Held(PcOf(s, v)).Some? { HeldIsIssued(s, v); }
    }
    assert PendingChunk(t, p, k, f, id, rows);
  }

  lemma OtherBatchNoChunks(s: State, t: State, w: WorkerId, queue: string, now: int, p: PageId)
    requires NoChunks(s, p) && BatchStep(s, t, w, queue, now) && PcOf(s, w).page != p
    ensures NoChunks(t, p)
  {
  }

  // ---- Steps that do not write the page ----------------------------------------------------------

  /** Who holds a chunk job knows it as that chunk job, and it is live. */
  lemma HolderIsChunk(s: State, w: WorkerId, id: JobId)
    requires Accounted(s) && id in s.children && Held(PcOf(s, w)).Some? && Held(PcOf(s, w)).value.id == id
    ensures Held(PcOf(s, w)).value.job.task == PersistChunk(s.children[id].page, s.children[id].index)
    ensures s.children[id].fate == Live
  {
    assert Holds(s.tables, Held(PcOf(s, w)).value);
    assert ChildJob(s.tables.jobs[id], s.children[id]);
  }

  ghost predicate SameFate(s: State, t: State, id: JobId) {
    && id in s.children && id in t.children && t.children[id].(fate := Live) == s.children[id].(fate := Live)
    && (t.children[id].fate == s.children[id].fate || t.children[id].fate.FailedOut?)
  }

  lemma DeleteKeepsFate(s: State, t: State, w: WorkerId, id: JobId, rows: seq<Row>, k: Key, f: Aspect)
    requires DeleteStep(s, t, w) && id in s.children && Waits(PcOf(s, w), id, rows, k, f)
    ensures SameFate(s, t, id)
  {
    assert Held(PcOf(s, w)) == Some(PcOf(s, w).r);
  }

  lemma CountDownKeepsFate(s: State, t: State, w: WorkerId, id: JobId)
    requires CountersMatch(s) && CountDownStep(s, t, w) && id in s.children
    requires s.children[id].fate.Live? || s.children[id].fate.FailedOut?
    ensures SameFate(s, t, id)
  {
    assert Counts(s.children, PcOf(s, w));
  }

  lemma EnqueueKeepsFate(s: State, t: State, w: WorkerId, queue: string, now: int, id: JobId)
    requires IdsIssued(s.tables, s.children) && BatchStep(s, t, w, queue, now) && id in s.children
    ensures SameFate(s, t, id)
  {
    NewChildrenAreLive(s, t, w, queue, now);
  }

  lemma FateKept(s: State, t: State, a: Step, p: PageId, k: Key, f: Aspect, id: JobId, rows: seq<Row>)
    requires Accounted(s) && Next(s, t, a) && PendingChunk(s, p, k, f, id, rows)
    ensures SameFate(s, t, id)
  {
    AccountedIdsIssued(s);
    assert CountersMatch(s);
    hide Accounted, CountersMatch, IdsIssued, Waits, LocalNext, RowsOfChild;
    if a.DeleteReserved? {
      assert Waits(PcOf(s, a.w), id, rows, k, f);
      DeleteKeepsFate(s, t, a.w, id, rows, k, f);
    } else if a.CountDownBatch? {
      CountDownKeepsFate(s, t, a.w, id);
    } else if a.EnqueueChunks? {
      EnqueueKeepsFate(s, t, a.w, a.queue, a.now, id);
    } else {
      ChildrenStay(s, t, a);
    }
  }

  lemma ChunkOfChild(s: State, p: PageId, id: JobId, rows: seq<Row>, task: Task)
    requires PagesMatch(s) && RowsOfChild(s, p, id, rows) && task == PersistChunk(p, s.children[id].index)
    ensures ChunkOf(s, task).Some? ==> ChunkOf(s, task).value == rows
  {
  }

  lemma AllUnsaid(rows: seq<Row>, k: Key, f: Aspect)
    requires exists q :: Ends(rows, k, f, q)
    ensures Unsaid(rows, k, f, Positions(|rows|)) && !Unsaid(rows, k, f, {})
  {
    forall q: nat | Ends(rows, k, f, q) ensures q in Positions(|rows|) { assert q < |rows|; }
  }

  /** A worker that begins the chunk has all of it to write, and one that succeeds has nothing left. */
  lemma MovesWait(s: State, p: Pc, q: Pc, id: JobId, rows: seq<Row>, k: Key, f: Aspect)
    requires Moves(s, p, q) && Waits(p, id, rows, k, f) && exists e :: Ends(rows, k, f, e)
    requires Held(p).Some? && Held(p).value.id == id ==>
      Held(p).value.job.task.PersistChunk? &&
      (ChunkOf(s, Held(p).value.job.task).Some? ==> ChunkOf(s, Held(p).value.job.task).value == rows)
    ensures Waits(q, id, rows, k, f)
  {
    AllUnsaid(rows, k, f);
    hide Unsaid, ChunkOf, Ends;
  }

  lemma MoveWaits(s: State, t: State, w: WorkerId, q: Pc, p: PageId, k: Key, f: Aspect, id: JobId, rows: seq<Row>)
    requires Accounted(s) && PagesMatch(s) && MoveStep(s, t, w, q) && PendingChunk(s, p, k, f, id, rows)
    ensures Waits(PcOf(t, w), id, rows, k, f)
  {
    hide Accounted, PagesMatch, Moves, Waits, Ends, ChunkOf;
    assert Waits(PcOf(s, w), id, rows, k, f);
    if Held(PcOf(s, w)).Some? && Held(PcOf(s, w)).value.id == id {
      HolderIsChunk(s, w, id);
      ChunkOfChild(s, p, id, rows, Held(PcOf(s, w)).value.job.task);
    }
    MovesWait(s, PcOf(s, w), q, id, rows, k, f);
  }

  lemma SetPageWaits(s: State, t: State, w: WorkerId, id: JobId, rows: seq<Row>, k: Key, f: Aspect)
    requires Accounted(s) && PcMatches(s.stored, PcOf(s, w)) && SetPageStep(s, t, w) && id in s.children
    ensures Waits(PcOf(t, w), id, rows, k, f)
  {
    SetPageMoves(s, t, w);
    if Held(PcOf(s, w)).Some? && Held(PcOf(s, w)).value.id == id { HolderIsChunk(s, w, id); }
  }

  lemma OtherWriteWaits(s: State, t: State, w: WorkerId, sub: set<nat>, mirror: Table, p: PageId, k: Key, f: Aspect,
                        id: JobId, rows: seq<Row>)
    requires Accounted(s) && WriteStep(s, t, w, sub, mirror) && !WritesPage(s, WriteRows(w, sub, mirror), p)
    requires PendingChunk(s, p, k, f, id, rows)
    ensures Waits(PcOf(t, w), id, rows, k, f)
  {
    if Held(PcOf(s, w)).Some? && Held(PcOf(s, w)).value.id == id { HolderIsChunk(s, w, id); }
  }

  lemma NewPcWaits(s: State, t: State, a: Step, id: JobId, rows: seq<Row>, k: Key, f: Aspect)
    requires (a.Spawn? || a.StoreFetched?) && LocalNext(s, t, a)
    ensures Waits(PcOf(t, a.w), id, rows, k, f)
  {
  }

  lemma LocalWaits(s: State, t: State, a: Step, p: PageId, k: Key, f: Aspect, id: JobId, rows: seq<Row>)
    requires Accounted(s) && PagesMatch(s) && IsLocal(a) && LocalNext(s, t, a) && PcMatches(s.stored, PcOf(s, a.w))
    requires !WritesPage(s, a, p) && PendingChunk(s, p, k, f, id, rows)
    ensures Waits(PcOf(t, a.w), id, rows, k, f)
  {
    assert id in s.children;
    hide Accounted, PagesMatch, PcMatches, PendingChunk, MoveStep, StoreStep, SetPageStep, WriteStep, WritesPage, Waits;
    if a.Move? {
      MoveWaits(s, t, a.w, a.to, p, k, f, id, rows);
    } else if a.SetPage? {
      SetPageWaits(s, t, a.w, id, rows, k, f);
    } else if a.WriteRows? {
      OtherWriteWaits(s, t, a.w, a.sub, a.mirror, p, k, f, id, rows);
    } else {
      NewPcWaits(s, t, a, id, rows, k, f);
    }
  }

  lemma OwnWaits(s: State, t: State, a: Step, p: PageId, k: Key, f: Aspect, id: JobId, rows: seq<Row>)
    requires Accounted(s) && PagesMatch(s) && Next(s, t, a) && Actor(a).Some? && PcMatches(s.stored, PcOf(s, a.w))
    requires !WritesPage(s, a, p) && PendingChunk(s, p, k, f, id, rows)
    ensures Waits(PcOf(t, a.w), id, rows, k, f)
  {
    hide Accounted, PagesMatch, PcMatches, PendingChunk, LocalNext, QueueNext, BatchNext, WritesPage;
    if IsLocal(a) {
      LocalWaits(s, t, a, p, k, f, id, rows);
    } else if IsQueueStep(a) {
      QueueUnclaimed(s, t, a);
    } else {
      BatchStepWaits(s, t, a);
    }
  }

  lemma ChildRowsKept(s: State, t: State, a: Step, p: PageId, id: JobId, rows: seq<Row>)
    requires PagesMatch(s) && Next(s, t, a) && RowsOfChild(s, p, id, rows) && SameFate(s, t, id)
    ensures RowsOfChild(t, p, id, rows)
  {
    hide Next, PagesMatch;
    assert t.children[id].(fate := Live).index == s.children[id].index;
    StoredGrows(s, t, a);
  }

  lemma PendingKept(s: State, t: State, a: Step, p: PageId, k: Key, f: Aspect, id: JobId, rows: seq<Row>)
    requires Accounted(s) && PagesMatch(s) && PcsMatch(s) && Next(s, t, a) && !WritesPage(s, a, p)
    requires PendingChunk(s, p, k, f, id, rows)
    ensures PendingChunk(t, p, k, f, id, rows)
  {
    hide Accounted, PagesMatch, PcMatches, Next, WritesPage, Waits, RowsOfChild;
    FateKept(s, t, a, p, k, f, id, rows);
    ChildRowsKept(s, t, a, p, id, rows);
    OthersStay(s, t, a);
    forall w: WorkerId ensures Waits(PcOf(t, w), id, rows, k, f) {
      assert Waits(PcOf(s, w), id, rows, k, f);
      if Actor(a) == Some(w) {
        assert PcMatches(s.stored, PcOf(s, w));
        OwnWaits(s, t, a, p, k, f, id, rows);
      }
    }
  }

  lemma NoChunksKept(s: State, t: State, a: Step, p: PageId)
    requires Next(s, t, a) && NoChunks(s, p) && !(a.EnqueueChunks? && PcOf(s, a.w).Stored? && PcOf(s, a.w).page == p)
    ensures NoChunks(t, p)
  {
    if a.DeleteReserved? {
      DeleteContinues(s, t, a.w);
      SameKeysNoChunks(s, t, p);
    } else if a.CountDownBatch? {
      CountDownContinues(s, t, a.w);
      SameKeysNoChunks(s, t, p);
    } else if a.EnqueueChunks? {
      OtherBatchNoChunks(s, t, a.w, a.queue, a.now, p);
    } else {
      ChildrenStay(s, t, a);
    }
  }

  lemma SameKeysNoChunks(s: State, t: State, p: PageId)
    requires NoChunks(s, p) && Continues(s.children, t.children) && t.children.Keys == s.children.Keys
    ensures NoChunks(t, p)
  {
    forall id | id in t.children ensures t.children[id].page != p {
      assert t.children[id].(fate := Live) == s.children[id].(fate := Live);
    }
  }

  lemma AppliedKept(s: State, t: State, p: PageId, k: Key, f: Aspect)
    requires p in s.stored && p in t.stored && AspectApplied(s, p, k, f)
    requires t.stored[p].parts == s.stored[p].parts && t.stored[p].base == s.stored[p].base
    requires View(Get(t.mirror, k), f) == View(Get(s.mirror, k), f)
    ensures AspectApplied(t, p, k, f)
  {
  }

  /** A step that does not write the page leaves its listings, and what is pending stays pending. */
  lemma OtherStepLeads(s: State, t: State, a: Step, p: PageId, k: Key, f: Aspect)
    requires Accounted(s) && Hydrating(s) && Next(s, t, a) && p in s.stored && !WritesPage(s, a, p)
    requires Leading(s, p, k, f) && Get(t.mirror, k) == Get(s.mirror, k)
    ensures Leading(t, p, k, f)
  {
    hide Accounted, PagesMatch, PcMatches, Next, WritesPage, NoChunks, Spoken, PendingChunk, AspectApplied;
    SnapshotKept(s, t, a, p);
    if AspectApplied(s, p, k, f) {
      AppliedKept(s, t, p, k, f);
    } else if id, rows :| PendingChunk(s, p, k, f, id, rows) {
      PendingKept(s, t, a, p, k, f, id, rows);
    } else if a.EnqueueChunks? && PcOf(s, a.w).Stored? && PcOf(s, a.w).page == p {
      EnqueueIsStep(s, t, a);
      assert PcMatches(s.stored, PcOf(s, a.w));
      EnqueueLeads(s, t, a.w, a.queue, a.now, p, k, f);
    } else {
      NoChunksKept(s, t, a, p);
    }
  }

  lemma EnqueueIsStep(s: State, t: State, a: Step)
    requires Next(s, t, a) && a.EnqueueChunks?
    ensures BatchStep(s, t, a.w, a.queue, a.now)
  {
  }

  // ---- Steps that write the page -----------------------------------------------------------------

  /** The rows being written are those of the chunk job. */
  lemma WriterRows(s: State, w: WorkerId, p: PageId)
    requires Accounted(s) && PcMatches(s.stored, PcOf(s, w)) && PcOf(s, w).Writing?
    requires PcOf(s, w).r.job.task.PersistChunk? && PcOf(s, w).r.job.task.page == p
    ensures var id := PcOf(s, w).r.id; RowsOfChild(s, p, id, PcOf(s, w).rows) && s.children[id].fate == Live
    ensures exists c: nat :: c < |s.stored[p].parts| && PcOf(s, w).rows == s.stored[p].parts[c]
  {
    WriterHoldsChild(s, w, p);
    assert Held(PcOf(s, w)) == Some(PcOf(s, w).r);
    HolderIsChunk(s, w, PcOf(s, w).r.id);
    var c: nat := PcOf(s, w).r.job.task.index - 1;
    assert PcOf(s, w).rows == s.stored[p].parts[c];
  }

  lemma OnlyHolder(s: State, v: WorkerId, w: WorkerId)
    requires HoldersMatch(s) && v != w && Held(PcOf(s, v)).Some? && Held(PcOf(s, w)).Some?
    ensures Held(PcOf(s, v)).value.id != Held(PcOf(s, w)).value.id
  {
  }

  /** The writer's own chunk is pending while its deciding row is unwritten. */
  lemma OwnPending(s: State, t: State, w: WorkerId, sub: set<nat>, mirror: Table, p: PageId, k: Key, f: Aspect)
    requires HoldersMatch(s) && WriteStep(s, t, w, sub, mirror)
    requires RowsOfChild(t, p, PcOf(s, w).r.id, PcOf(s, w).rows) && t.children[PcOf(s, w).r.id].fate.Live?
    requires Unsaid(PcOf(s, w).rows, k, f, PcOf(s, w).todo - sub)
    ensures PendingChunk(t, p, k, f, PcOf(s, w).r.id, PcOf(s, w).rows)
  {
    var id, rows := PcOf(s, w).r.id, PcOf(s, w).rows;
    WriteEffect(s, t, w, sub, mirror);
    assert Held(PcOf(s, w)) == Some(PcOf(s, w).r);
    forall v: WorkerId ensures Waits(PcOf(t, v), id, rows, k, f) {
      if v != w && Held(PcOf(s, v)).Some? { OnlyHolder(s, v, w); }
    }
  }

  lemma WriteRowsOfChild(s: State, t: State, w: WorkerId, sub: set<nat>, mirror: Table, p: PageId, id: JobId,
                         rows: seq<Row>)
    requires WriteStep(s, t, w, sub, mirror) && RowsOfChild(s, p, id, rows)
    ensures RowsOfChild(t, p, id, rows) && t.children == s.children
  {
    WriteNotes(s, t, w, sub, mirror);
    WriteEffect(s, t, w, sub, mirror);
    NoteWrittenGrows(s.stored, PcOf(s, w).r.job.task, sub);
  }

  /** Another chunk stays pending, and so does the writer's if no deciding row was written. */
  lemma WritePendingKept(s: State, t: State, w: WorkerId, sub: set<nat>, mirror: Table, p: PageId, k: Key, f: Aspect,
                         id: JobId, rows: seq<Row>)
    requires WriteStep(s, t, w, sub, mirror) && PendingChunk(s, p, k, f, id, rows)
    requires RowsOfChild(s, p, PcOf(s, w).r.id, PcOf(s, w).rows)
    requires forall q :: Ends(PcOf(s, w).rows, k, f, q) ==> q !in sub
    ensures PendingChunk(t, p, k, f, id, rows)
  {
    WriteRowsOfChild(s, t, w, sub, mirror, p, id, rows);
    assert PcOf(s, w).r.id == id ==> PcOf(s, w).rows == rows;
    hide RowsOfChild, Ends, Commits;
    WriteEffect(s, t, w, sub, mirror);
    forall v: WorkerId ensures Waits(PcOf(t, v), id, rows, k, f) { assert Waits(PcOf(s, v), id, rows, k, f); }
  }

  lemma WriteFacts(s: State, t: State, w: WorkerId, sub: set<nat>, mirror: Table)
    requires WriteStep(s, t, w, sub, mirror)
    ensures t.mirror == mirror && sub <= PcOf(s, w).todo
    ensures Commits(s.mirror, PcOf(s, w).rows, PcOf(s, w).todo, sub, mirror)
  {
  }

  /** What a transaction of a chunk of the page does to the aspect. */
  lemma WriteIsLeading(s: State, t: State, w: WorkerId, sub: set<nat>, mirror: Table, p: PageId, k: Key, f: Aspect)
    requires Accounted(s) && PcMatches(s.stored, PcOf(s, w)) && OrderlyCall(PcOf(s, w))
    requires WriteStep(s, t, w, sub, mirror) && WritesPage(s, WriteRows(w, sub, mirror), p)
    requires p in s.stored && SettledAspect(s.stored[p].parts, k, f)
    ensures Leads(s.mirror, PcOf(s, w).rows, PcOf(s, w).todo, sub, t.mirror, k, f, Target(s.stored[p], k, f))
  {
    WriterRows(s, w, p);
    WriteFacts(s, t, w, sub, mirror);
    var parts := s.stored[p].parts;
    var c: nat :| c < |parts| && PcOf(s, w).rows == parts[c];
    SettledFits(Get(s.stored[p].base, k), parts, k, f, c);
    hide Accounted, PcMatches, WriteStep, Commits, Fits, Leads, KeySettles;
    CommitsLead(s.mirror, PcOf(s, w).rows, PcOf(s, w).todo, sub, mirror, k, f, Target(s.stored[p], k, f));
  }

  /** Each transaction of a chunk of the page keeps the invariant. */
  lemma WriteLeads(s: State, t: State, w: WorkerId, sub: set<nat>, mirror: Table, p: PageId, k: Key, f: Aspect)
    requires Accounted(s) && PcMatches(s.stored, PcOf(s, w)) && OrderlyCall(PcOf(s, w))
    requires WriteStep(s, t, w, sub, mirror) && WritesPage(s, WriteRows(w, sub, mirror), p)
    requires p in s.stored && p in t.stored && SettledAspect(s.stored[p].parts, k, f) && Leading(s, p, k, f)
    requires t.stored[p].parts == s.stored[p].parts && t.stored[p].base == s.stored[p].base
    ensures Leading(t, p, k, f)
  {
    var rows, own := PcOf(s, w).rows, PcOf(s, w).r.id;
    assert HoldersMatch(s);
    WriteIsLeading(s, t, w, sub, mirror, p, k, f);
    WriterRows(s, w, p);
    hide Accounted, PcMatches, OrderlyCall, WriteStep, SettledAspect, HoldersMatch, PendingChunk, RowsOfChild, Unsaid;
    hide View, Target, Ends;
    WriteRowsOfChild(s, t, w, sub, mirror, p, own, rows);
    if View(Get(t.mirror, k), f) == Target(t.stored[p], k, f) {
      assert AspectApplied(t, p, k, f);
    } else if Unsaid(rows, k, f, PcOf(s, w).todo - sub) {
      OwnPending(s, t, w, sub, mirror, p, k, f);
    } else if id, all :| PendingChunk(s, p, k, f, id, all) {
      WritePendingKept(s, t, w, sub, mirror, p, k, f, id, all);
    } else {
      AppliedKept(s, t, p, k, f);
    }
  }

  // ---- Over runs ---------------------------------------------------------------------------------

  lemma ListingUndisturbed(s: State, t: State, p: PageId, k: Key)
    requires SameOn(PageRows(s, p), s.mirror, t.mirror) && !Foreign(k, PageRows(s, p))
    ensures Get(t.mirror, k) == Get(s.mirror, k)
  {
  }

  lemma LeadingKept(s: State, t: State, a: Step, p: PageId, k: Key, f: Aspect)
    requires Accounted(s) && Hydrating(s) && OrderlyCalls(s) && Next(s, t, a) && Undisturbed(s, t, a, p)
    requires Leading(s, p, k, f) && (p in t.stored ==> SettledAspect(t.stored[p].parts, k, f))
    ensures Leading(t, p, k, f)
  {
    if p !in s.stored {
      if p in t.stored {
        StoredBy(s, t, a, p);
        StoreLeads(s, t, a.w, a.parts, k, f);
      }
    } else {
      SnapshotKept(s, t, a, p);
      if WritesPage(s, a, p) {
        assert PcMatches(s.stored, PcOf(s, a.w)) && OrderlyCall(PcOf(s, a.w));
        WriteLeads(s, t, a.w, a.sub, a.mirror, p, k, f);
      } else {
        ListingUndisturbed(s, t, p, k);
        OtherStepLeads(s, t, a, p, k, f);
      }
    }
  }

  lemma StartLeads(mirror: Table, p: PageId, k: Key, f: Aspect)
    ensures Leading(Start(mirror), p, k, f)
  {
  }

  /** The page that is stored as p, if it is, consists of these chunks. */
  ghost predicate StoredAs(s: State, p: PageId, parts: seq<seq<Row>>) {
    p in s.stored ==> s.stored[p].parts == parts
  }

  lemma {:induction false} LeadingAlways(states: seq<State>, steps: seq<Step>, p: PageId, parts: seq<seq<Row>>, k: Key,
                                         f: Aspect, i: nat)
    requires FailStopRun(states, steps) && i < |states| && SettledAspect(parts, k, f)
    requires forall j :: 0 <= j < i ==> Undisturbed(states[j], states[j + 1], steps[j], p)
    requires forall j :: 0 <= j <= i ==> StoredAs(states[j], p, parts)
    ensures Leading(states[i], p, k, f)
  {
    hide Next, Accounted, Hydrating, FailStop, CallbacksAreFinal, SettledAspect, Leading, OrderlyCalls, Undisturbed;
    if i > 0 {
      LeadingAlways(states, steps, p, parts, k, f, i - 1);
      AccountedAlways(states, steps, i - 1);
      HydratingAlways(states, steps, i - 1);
      CallsAlways(states, steps, i - 1);
      assert StoredAs(states[i], p, parts);
      LeadingKept(states[i - 1], states[i], steps[i - 1], p, k, f);
    } else {
      StartLeads(states[0].mirror, p, k, f);
    }
  }

  lemma StoredAsAlways(states: seq<State>, steps: seq<Step>, i: nat, p: PageId)
    requires Run(states, steps) && i < |states| && p in states[i].stored
    ensures forall j :: 0 <= j <= i ==> StoredAs(states[j], p, states[i].stored[p].parts)
  {
    forall j | 0 <= j <= i ensures StoredAs(states[j], p, states[i].stored[p].parts) {
      if p in states[j].stored { SnapshotStays(states, steps, p, j, i); }
    }
  }

  /** A pending chunk of the page is owed by its batch. */
  lemma PendingIsOwed(s: State, b: BatchId, p: PageId, k: Key, f: Aspect, id: JobId, rows: seq<Row>)
    requires BatchesApart(s) && FinalizedPage(s, b) == Some(p) && PendingChunk(s, p, k, f, id, rows)
    ensures id in Owed(s.children, b)
  {
    assert s.children[id].batch == b;
  }

  lemma BatchHasChunks(s: State, b: BatchId, p: PageId)
    requires BatchesCover(s) && FinalizedPage(s, b) == Some(p)
    ensures p in s.stored && (NoChunks(s, p) ==> s.stored[p].parts == [])
  {
    assert BatchCovers(s.stored, s.children, b, s.tables.batches[b]);
    if s.stored[p].parts != [] { assert HasChild(s.children, b, p, 1); }
  }

  lemma AnnouncedApplied(s: State, b: BatchId, p: PageId, k: Key, f: Aspect)
    requires BatchesCover(s) && BatchesApart(s) && FinalizedPage(s, b) == Some(p) && Owed(s.children, b) == {}
    requires Leading(s, p, k, f)
    ensures p in s.stored && AspectApplied(s, p, k, f)
  {
    hide BatchesCover, BatchesApart, FinalizedPage, Owed, PendingChunk, AspectApplied, NoChunks;
    BatchHasChunks(s, b, p);
    if id, rows :| PendingChunk(s, p, k, f, id, rows) { PendingIsOwed(s, b, p, k, f, id, rows); }
  }

  /** A run in which p's completion job has been enqueued and so far only p's chunk jobs have changed p's listings. */
  ghost predicate Finalized(states: seq<State>, steps: seq<Step>, i: nat, b: BatchId, p: PageId) {
    && FailStopRun(states, steps) && i < |states|
    && Announcements(states[i], b) > 0 && FinalizedPage(states[i], b) == Some(p)
    && forall j :: 0 <= j < i ==> Undisturbed(states[j], states[j + 1], steps[j], p)
  }

  lemma AspectIsApplied(states: seq<State>, steps: seq<Step>, i: nat, b: BatchId, p: PageId, k: Key, f: Aspect)
    requires Finalized(states, steps, i, b, p) && p in states[i].stored
    requires SettledAspect(states[i].stored[p].parts, k, f)
    ensures AspectApplied(states[i], p, k, f)
  {
    var s := states[i];
    StoredAsAlways(states, steps, i, p);
    LeadingAlways(states, steps, p, s.stored[p].parts, k, f, i);
    HydratingAlways(states, steps, i);
    ApartAlways(states, steps, i);
    FailedChunkBlocksFinalize(states, steps, i, b);
    AnnouncedApplied(s, b, p, k, f);
  }

  lemma FinalizedIsStored(states: seq<State>, steps: seq<Step>, i: nat, b: BatchId, p: PageId)
    requires Finalized(states, steps, i, b, p)
    ensures p in states[i].stored
  {
    HydratingAlways(states, steps, i);
    BatchHasChunks(states[i], b, p);
  }

  /** One listing of a page that settles, as row-at-a-time application leaves it. */
  lemma ListingApplied(states: seq<State>, steps: seq<Step>, i: nat, b: BatchId, p: PageId, k: Key)
    requires Finalized(states, steps, i, b, p) && p in states[i].stored
    requires var parts := states[i].stored[p].parts;
      PageSettles(parts) && FlagsAgree(Flatten(parts)) && !Foreign(k, Flatten(parts))
    ensures var snap := states[i].stored[p];
      Get(states[i].mirror, k) == ListingMirrorOrder.RowsAt(Get(snap.base, k), Flatten(snap.parts), k)
  {
    var s, snap := states[i], states[i].stored[p];
    var all := Flatten(snap.parts);
    var x := ListingMirrorOrder.RowsAt(Get(snap.base, k), all, k);
    assert KeySettles(snap.parts, k);
    hide Finalized, FlagsAgree, PageSettles;
    if NeverRemoved(all, k) {
      var flag := FlagOf(all, k);
      forall f: Aspect | !f.Presence? && (f.Flood? ==> f.flag == flag) ensures View(Get(s.mirror, k), f) == View(x, f) {
        AspectIsApplied(states, steps, i, b, p, k, f);
      }
      SameViews(Get(s.mirror, k), x, flag);
    } else {
      AspectIsApplied(states, steps, i, b, p, k, Presence);
      var n: nat :| LastOfKey(all, n) && all[n] == Remove(k);
      RowsAtLast(Get(snap.base, k), all, n);
    }
  }

  /** The page's listings are as if the whole page had been applied, row by row, to the mirror of the moment it was
      stored. */
  ghost predicate PageInMirror(s: State, p: PageId) {
    p in s.stored && SameOn(PageRows(s, p), s.mirror, ApplyRows(s.stored[p].base, PageRows(s, p)))
  }

  /** End to end: in every fail-stop run in which so far only page p's chunk jobs have changed p's listings, once
      p's completion job has been enqueued the mirror holds the page. The page may repeat keys, as long as it
      settles. */
  lemma FinalizedPageIsInTheMirror(states: seq<State>, steps: seq<Step>, i: nat, b: BatchId, p: PageId)
    requires Finalized(states, steps, i, b, p)
    requires p in states[i].stored ==>
      PageSettles(states[i].stored[p].parts) && FlagsAgree(Flatten(states[i].stored[p].parts))
    ensures PageInMirror(states[i], p)
  {
    FinalizedIsStored(states, steps, i, b, p);
    var s, snap := states[i], states[i].stored[p];
    var all := Flatten(snap.parts);
    forall n | 0 <= n < |all| && Writes(all[n])
      ensures Get(s.mirror, RowKey(all[n])) == Get(ApplyRows(snap.base, all), RowKey(all[n]))
    {
      var k := RowKey(all[n]);
      ListingApplied(states, steps, i, b, p, k);
      ApplyRowsAt(snap.base, all, k);
    }
  }
}
