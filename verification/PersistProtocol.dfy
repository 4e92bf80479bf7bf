/** The replication pipeline as a state machine: fetch jobs store pages and enqueue batches of persist
    chunks, workers hydrate the chunks, and the last one to count down enqueues the page's finalize job
    (internal/queue/queue.go, internal/queue/worker.go, internal/service/sync/bridge_worker.go).

    Every SQL statement or transaction is one atomic step, any number of workers interleave, and a worker
    may crash between any two steps. Handlers may also fail at any point. */
module PersistProtocol {
  import opened Wrappers
  import opened JobTables
  import opened ListingMirror
  import opened ListingMirrorWriting
  import opened ReplicaPages

  type PageId = nat
  type WorkerId = nat

  const MAX_ATTEMPTS := 3

  datatype Task =
    | FetchPage
    | PersistChunk(page: PageId, index: nat)
    | PersistFinalize(target: Option<PageId>)
    | OtherTask

  datatype Status = Pending | Processing | Completed

  datatype Page = Page(parts: seq<seq<Row>>, status: Status, batch: Option<BatchId>)

  /** Where a worker stands in its loop. The states up to Recorded hold a reserved job. */
  datatype Pc =
    | Idle
    | Holding(r: Reserved<Task>)
    | Stored(r: Reserved<Task>, page: PageId, chunks: nat)
    | Batched(r: Reserved<Task>, page: PageId, batch: BatchId)
    | Writing(r: Reserved<Task>, rows: seq<Row>, todo: set<nat>)
    | Closed(r: Reserved<Task>)
    | Succeeded(r: Reserved<Task>)
    | Failing(r: Reserved<Task>)
    | Recorded(r: Reserved<Task>)
    | Counting(id: JobId, batch: BatchId, queue: string)
    | Announcing(batch: BatchId, queue: string, marked: bool)
    | Dead

  /** History of one chunk job: still queued, moved to failed_jobs, deleted but not counted, or counted. */
  datatype Fate = Live | FailedOut | Uncounted | Counted

  datatype Child = Child(batch: BatchId, page: PageId, index: nat, fate: Fate)

  /** History of one page: its rows, the mirror when it was stored, and the row positions written since. */
  datatype Snapshot = Snapshot(parts: seq<seq<Row>>, base: Table, written: set<nat>)

  datatype State = State(
    tables: Tables<Task>,
    pages: map<PageId, Page>,
    nextPage: PageId,
    mirror: Table,
    workers: map<WorkerId, Pc>,
    // history, read by no step
    children: map<JobId, Child>,
    stored: map<PageId, Snapshot>,
    announced: map<BatchId, nat>)

  datatype Step =
    | Spawn(w: WorkerId)
    | Move(w: WorkerId, to: Pc)
    | EnqueuePlain(queue: string, task: Task, availableAt: int)
    | ReserveJob(w: WorkerId, queue: string, now: int, before: int)
    | StoreFetched(w: WorkerId, parts: seq<seq<Row>>)
    | EnqueueChunks(w: WorkerId, queue: string, now: int)
    | SetPage(w: WorkerId)
    | WriteRows(w: WorkerId, sub: set<nat>, mirror: Table)
    | ReleaseAgain(w: WorkerId, availableAt: int)
    | RecordFailed(w: WorkerId)
    | DeleteReserved(w: WorkerId)
    | CountDownBatch(w: WorkerId)
    | FinishBatch(w: WorkerId, now: int)
    | AnnounceBatch(w: WorkerId, now: int)
    | OutsideWrite(mirror: Table)

  function PcOf(s: State, w: WorkerId): Pc { if w in s.workers then s.workers[w] else Dead }

  function Held(p: Pc): Option<Reserved<Task>> {
    match p
    case Holding(r) => Some(r)
    case Stored(r, _, _) => Some(r)
    case Batched(r, _, _) => Some(r)
    case Writing(r, _, _) => Some(r)
    case Closed(r) => Some(r)
    case Succeeded(r) => Some(r)
    case Failing(r) => Some(r)
    case Recorded(r) => Some(r)
    case _ => None
  }

  function Go(s: State, w: WorkerId, p: Pc): State { s.(workers := s.workers[w := p]) }

  // ---- Steps that touch no table -----------------------------------------------------------------

  /** The rows that a chunk job reads from its page. */
  function ChunkOf(s: State, task: Task): Option<seq<Row>> {
    if task.PersistChunk? && task.page in s.pages then
      match RowsForChunk(s.pages[task.page].parts, task.index)
      case OutOfRange => None
      case Rows(rows) => Some(rows)
    else None
  }

  /** A handler starts or finishes a chunk, finishes another job, or fails; or the worker crashes. */
  ghost predicate Moves(s: State, p: Pc, q: Pc) {
    || q == Dead
    || (p.Holding? && ChunkOf(s, p.r.job.task).Some? &&
        var rows := ChunkOf(s, p.r.job.task).value; q == Writing(p.r, rows, Positions(|rows|)))
    || (p.Writing? && p.todo == {} && q == Succeeded(p.r))
    || (p.Holding? && !p.r.job.task.PersistChunk? && q == Succeeded(p.r))
    || ((p.Holding? || p.Stored? || p.Batched? || p.Writing? || p.Closed?) && q == Failing(Held(p).value))
  }

  ghost predicate SpawnStep(s: State, t: State, w: WorkerId) {
    w !in s.workers && t == Go(s, w, Idle)
  }

  ghost predicate MoveStep(s: State, t: State, w: WorkerId, q: Pc) {
    w in s.workers && Moves(s, PcOf(s, w), q) && t == Go(s, w, q)
  }

  // ---- The queue ---------------------------------------------------------------------------------

  /** Kickoffs, chained fetches and other producers; only EnqueueChunks makes chunk jobs. */
  ghost predicate EnqueueStep(s: State, t: State, queue: string, task: Task, availableAt: int) {
    !task.PersistChunk? && (task.PersistFinalize? ==> task.target.None?) &&
    t == s.(tables := Insert(s.tables, queue, task, None, availableAt))
  }

  ghost predicate ReserveStep(s: State, t: State, w: WorkerId, queue: string, now: int, before: int) {
    PcOf(s, w).Idle? && HasWork(s.tables, queue, now, before) &&
    var id := Candidate(s.tables, [queue], now, before).value;
    var u := Reserve(s.tables, id, now, before);
    t == Go(s, w, Holding(Reserved(id, u.jobs[id]))).(tables := u)
  }

  ghost predicate ReleaseStep(s: State, t: State, w: WorkerId, availableAt: int) {
    var p := PcOf(s, w);
    p.Failing? && p.r.job.attempts < MAX_ATTEMPTS &&
    t == Go(s, w, Idle).(tables := ReleaseJob(s.tables, p.r.id, availableAt))
  }

  ghost predicate RecordStep(s: State, t: State, w: WorkerId) {
    var p := PcOf(s, w);
    p.Failing? && p.r.job.attempts >= MAX_ATTEMPTS &&
    t == Go(s, w, Recorded(p.r)).(tables := RecordFailure(s.tables, p.r.job))
  }

  function SetFate(children: map<JobId, Child>, id: JobId, fate: Fate): map<JobId, Child> {
    if id in children then children[id := children[id].(fate := fate)] else children
  }

  /** The DELETE after a success, or the one that follows the insert into failed_jobs. */
  ghost predicate DeleteStep(s: State, t: State, w: WorkerId) {
    var p := PcOf(s, w);
    (p.Succeeded? || p.Recorded?) &&
    var q := if p.Succeeded? && p.r.job.batch.Some? then Counting(p.r.id, p.r.job.batch.value, p.r.job.queue) else Idle;
    t == Go(s, w, q).(
      tables := DeleteJob(s.tables, p.r.id),
      children := if p.r.id in s.tables.jobs
        then SetFate(s.children, p.r.id, if p.Succeeded? then Uncounted else FailedOut) else s.children)
  }

  // ---- Batches -----------------------------------------------------------------------------------

  /** The chunk jobs of a page of n parts. */
  function ChunkTasks(page: PageId, n: nat): (tasks: seq<Task>)
    ensures |tasks| == n && forall i :: 0 <= i < n ==> tasks[i] == PersistChunk(page, i + 1)
  {
    seq(n, i requires 0 <= i < n => PersistChunk(page, i + 1))
  }

  function NewChildren(first: JobId, n: nat, batch: BatchId, page: PageId): (m: map<JobId, Child>)
    ensures forall id :: id in m <==> first <= id < first + n
    ensures forall id :: id in m ==> m[id] == Child(batch, page, id - first + 1, Live)
  {
    if n == 0 then map[] else NewChildren(first, n - 1, batch, page)[first + n - 1 := Child(batch, page, n, Live)]
  }

  function BatchInserted(t: Tables<Task>, page: PageId, chunks: nat, queue: string, now: int): Tables<Task> {
    InsertBatch(t, queue, ChunkTasks(page, chunks), Some(Callback(queue, PersistFinalize(Some(page)))), now)
  }

  ghost predicate BatchStep(s: State, t: State, w: WorkerId, queue: string, now: int) {
    var p, b := PcOf(s, w), s.tables.nextBatch;
    p.Stored? &&
    t == Go(s, w, Batched(p.r, p.page, b)).(
      tables := BatchInserted(s.tables, p.page, p.chunks, queue, now),
      children := s.children + NewChildren(s.tables.nextJob, p.chunks, b, p.page))
  }

  /** The decrement took effect. */
  ghost predicate CountedStep(s: State, t: State, w: WorkerId) {
    var p := PcOf(s, w);
    p.Counting? && CanCountDown(s.tables, p.batch) &&
    var u := CountDown(s.tables, p.batch);
    t == Go(s, w, if u.batches[p.batch].pending == 0 then Announcing(p.batch, p.queue, false) else Idle).(
      tables := u, children := SetFate(s.children, p.id, Counted))
  }

  /** There was nothing to count down. */
  ghost predicate RefusedStep(s: State, t: State, w: WorkerId) {
    PcOf(s, w).Counting? && !CanCountDown(s.tables, PcOf(s, w).batch) && t == Go(s, w, Idle)
  }

  ghost predicate CountDownStep(s: State, t: State, w: WorkerId) {
    CountedStep(s, t, w) || RefusedStep(s, t, w)
  }

  ghost predicate FinishStep(s: State, t: State, w: WorkerId, now: int) {
    var p := PcOf(s, w);
    p.Announcing? && !p.marked && t == Go(s, w, p.(marked := true)).(tables := MarkFinished(s.tables, p.batch, now))
  }

  function Announcements(s: State, b: BatchId): nat { if b in s.announced then s.announced[b] else 0 }

  ghost predicate AnnounceStep(s: State, t: State, w: WorkerId, now: int) {
    var p := PcOf(s, w);
    p.Announcing? && p.marked &&
    t == Go(s, w, Idle).(
      tables := JobTables.Announce(s.tables, p.batch, p.queue, now),
      announced := s.announced[p.batch := Announcements(s, p.batch) + 1])
  }

  // ---- Pages and the mirror ----------------------------------------------------------------------

  ghost predicate StoreStep(s: State, t: State, w: WorkerId, parts: seq<seq<Row>>) {
    var p := PcOf(s, w);
    p.Holding? && p.r.job.task.FetchPage? && parts != [] &&
    t == Go(s, w, Stored(p.r, s.nextPage, |parts|)).(
      pages := s.pages[s.nextPage := Page(parts, Pending, None)],
      nextPage := s.nextPage + 1,
      stored := s.stored[s.nextPage := Snapshot(parts, s.mirror, {})])
  }

  /** UPDATE replica_pages SET status = ..., batch_id = ... WHERE id = $1. */
  function WithStatus(pages: map<PageId, Page>, page: PageId, status: Status, batch: Option<BatchId>)
    : map<PageId, Page>
  {
    if page !in pages then pages
    else pages[page := Page(pages[page].parts, status, if batch.Some? then batch else pages[page].batch)]
  }

  ghost predicate MarkProcessingStep(s: State, t: State, w: WorkerId) {
    var p := PcOf(s, w);
    p.Batched? && t == Go(s, w, Succeeded(p.r)).(pages := WithStatus(s.pages, p.page, Processing, Some(p.batch)))
  }

  /** The page that a finalize job closes. */
  function TargetOf(task: Task): Option<PageId> { if task.PersistFinalize? then task.target else None }

  ghost predicate MarkCompletedStep(s: State, t: State, w: WorkerId) {
    var p := PcOf(s, w);
    p.Holding? && TargetOf(p.r.job.task).Some? &&
    t == Go(s, w, Closed(p.r)).(pages := WithStatus(s.pages, TargetOf(p.r.job.task).value, Completed, None))
  }

  ghost predicate DeletePageStep(s: State, t: State, w: WorkerId) {
    var p := PcOf(s, w);
    p.Closed? && TargetOf(p.r.job.task).Some? &&
    t == Go(s, w, Succeeded(p.r)).(pages := s.pages - {TargetOf(p.r.job.task).value})
  }

  /** MarkProcessing after the batch, MarkCompleted in the finalize job, and then DeletePage. */
  ghost predicate SetPageStep(s: State, t: State, w: WorkerId) {
    MarkProcessingStep(s, t, w) || MarkCompletedStep(s, t, w) || DeletePageStep(s, t, w)
  }

  function NoteWritten(stored: map<PageId, Snapshot>, task: Task, sub: set<nat>): map<PageId, Snapshot> {
    if task.PersistChunk? && task.page in stored && 1 <= task.index <= |stored[task.page].parts| then
      var snap := stored[task.page];
      stored[task.page := snap.(written := snap.written + Shift(sub, Offset(snap.parts, task.index - 1)))]
    else stored
  }

  /** The next transaction of HydrateReplicaBatch, whatever the mirror has become meanwhile. */
  ghost predicate WriteStep(s: State, t: State, w: WorkerId, sub: set<nat>, mirror: Table) {
    var p := PcOf(s, w);
    p.Writing? && sub <= p.todo && Commits(s.mirror, p.rows, p.todo, sub, mirror) &&
    t == Go(s, w, p.(todo := p.todo - sub)).(mirror := mirror, stored := NoteWritten(s.stored, p.r.job.task, sub))
  }

  // ---- Runs --------------------------------------------------------------------------------------

  predicate IsLocal(a: Step) { a.Spawn? || a.Move? || a.StoreFetched? || a.SetPage? || a.WriteRows? }

  predicate IsQueueStep(a: Step) { a.ReserveJob? || a.ReleaseAgain? || a.RecordFailed? || a.DeleteReserved? }

  predicate IsBatchStep(a: Step) { a.EnqueueChunks? || a.CountDownBatch? || a.FinishBatch? || a.AnnounceBatch? }

  /** Steps that leave the queue alone. */
  ghost predicate LocalNext(s: State, t: State, a: Step)
    requires IsLocal(a)
  {
    match a
    case Spawn(w) => SpawnStep(s, t, w)
    case Move(w, to) => MoveStep(s, t, w, to)
    case StoreFetched(w, parts) => StoreStep(s, t, w, parts)
    case SetPage(w) => SetPageStep(s, t, w)
    case WriteRows(w, sub, mirror) => WriteStep(s, t, w, sub, mirror)
  }

  /** Steps on the job tables that leave the batches alone. */
  ghost predicate QueueNext(s: State, t: State, a: Step)
    requires IsQueueStep(a)
  {
    match a
    case ReserveJob(w, queue, now, before) => ReserveStep(s, t, w, queue, now, before)
    case ReleaseAgain(w, availableAt) => ReleaseStep(s, t, w, availableAt)
    case RecordFailed(w) => RecordStep(s, t, w)
    case DeleteReserved(w) => DeleteStep(s, t, w)
  }

  ghost predicate BatchNext(s: State, t: State, a: Step)
    requires IsBatchStep(a)
  {
    match a
    case EnqueueChunks(w, queue, now) => BatchStep(s, t, w, queue, now)
    case CountDownBatch(w) => CountDownStep(s, t, w)
    case FinishBatch(w, now) => FinishStep(s, t, w, now)
    case AnnounceBatch(w, now) => AnnounceStep(s, t, w, now)
  }

  /** Steps of no worker of the pipeline. */
  ghost predicate OutsideNext(s: State, t: State, a: Step)
    requires a.EnqueuePlain? || a.OutsideWrite?
  {
    match a
    case EnqueuePlain(queue, task, availableAt) => EnqueueStep(s, t, queue, task, availableAt)
    case OutsideWrite(mirror) => t == s.(mirror := mirror)
  }

  ghost predicate Next(s: State, t: State, a: Step) {
    if IsLocal(a) then LocalNext(s, t, a)
    else if IsQueueStep(a) then QueueNext(s, t, a)
    else if IsBatchStep(a) then BatchNext(s, t, a)
    else OutsideNext(s, t, a)
  }

  function Start(mirror: Table): State {
    State(Tables(map[], 0, [], map[], 0), map[], 0, mirror, map[], map[], map[], map[])
  }

  ghost predicate Run(states: seq<State>, steps: seq<Step>) {
    && |states| == |steps| + 1
    && states[0] == Start(states[0].mirror)
    && forall i :: 0 <= i < |steps| ==> Next(states[i], states[i + 1], steps[i])
  }

  /** A stale reservation is taken over only when no living worker still holds the job. */
  ghost predicate FailStop(s: State, a: Step) {
    a.ReserveJob? ==>
      forall w, id :: id in s.tables.jobs && Stale(s.tables.jobs[id], a.before) && Held(PcOf(s, w)).Some? ==>
        Held(PcOf(s, w)).value.id != id
  }

  // ---- At most one announcement, with no fail-stop assumption ------------------------------------

  ghost predicate OnceInv(s: State) {
    && (forall b :: b in s.tables.batches ==> b < s.tables.nextBatch)
    && (forall b :: Announcements(s, b) <= 1)
    && (forall b :: Announcements(s, b) > 0 ==> Drained(s, b))
    && (forall w :: PcOf(s, w).Announcing? ==> Drained(s, PcOf(s, w).batch) && Announcements(s, PcOf(s, w).batch) == 0)
    && (forall v, w :: v != w && PcOf(s, v).Announcing? && PcOf(s, w).Announcing? ==>
       PcOf(s, v).batch != PcOf(s, w).batch)
  }

  ghost predicate Drained(s: State, b: BatchId) {
    b in s.tables.batches && s.tables.batches[b].pending == 0
  }

  lemma {:induction false} InsertAllFrame(t: Tables<Task>, queue: string, tasks: seq<Task>, b: BatchId, now: int)
    ensures var u := InsertAll(t, queue, tasks, b, now);
      u.batches == t.batches && u.nextBatch == t.nextBatch && u.failed == t.failed
  {
    if tasks != [] { InsertAllFrame(t, queue, tasks[..|tasks| - 1], b, now); }
  }

  lemma BatchInsertedFrame(t: Tables<Task>, page: PageId, chunks: nat, queue: string, now: int)
    ensures var u := BatchInserted(t, page, chunks, queue, now);
      && u.batches ==
         t.batches[t.nextBatch := Batch(chunks, chunks, Some(Callback(queue, PersistFinalize(Some(page)))), None)]
      && u.nextBatch == t.nextBatch + 1 && u.failed == t.failed
  {
    var cb := Some(Callback(queue, PersistFinalize(Some(page))));
    InsertAllFrame(t.(batches := t.batches[t.nextBatch := Batch(chunks, chunks, cb, None)],
      nextBatch := t.nextBatch + 1),
      queue, ChunkTasks(page, chunks), t.nextBatch, now);
  }

  function Actor(a: Step): Option<WorkerId> {
    if a.EnqueuePlain? || a.OutsideWrite? then None else Some(a.w)
  }

  // ---- What each kind of step leaves alone --------------------------------------------------------

  ghost predicate OnlyMoves(s: State, t: State, w: WorkerId) {
    forall v: WorkerId :: v != w ==> PcOf(t, v) == PcOf(s, v)
  }

  /** The worker does not begin to announce a batch. */
  ghost predicate NoNewAnnouncing(p: Pc, q: Pc) {
    q.Announcing? ==> p.Announcing? && p.batch == q.batch
  }

  /** A local step: one worker moves, and it takes up no new announcement. */
  ghost predicate LocalEffect(s: State, t: State, w: WorkerId) {
    && t.tables == s.tables && t.children == s.children && t.announced == s.announced
    && OnlyMoves(s, t, w) && NoNewAnnouncing(PcOf(s, w), PcOf(t, w))
  }

  lemma SpawnEffect(s: State, t: State, w: WorkerId)
    requires SpawnStep(s, t, w)
    ensures LocalEffect(s, t, w)
  {
  }

  lemma MoveEffect(s: State, t: State, w: WorkerId, q: Pc)
    requires MoveStep(s, t, w, q)
    ensures LocalEffect(s, t, w)
  {
  }

  lemma StoreEffect(s: State, t: State, w: WorkerId, parts: seq<seq<Row>>)
    requires StoreStep(s, t, w, parts)
    ensures LocalEffect(s, t, w)
  {
  }

  lemma MarkProcessingEffect(s: State, t: State, w: WorkerId)
    requires MarkProcessingStep(s, t, w)
    ensures LocalEffect(s, t, w)
  {
  }

  lemma MarkCompletedEffect(s: State, t: State, w: WorkerId)
    requires MarkCompletedStep(s, t, w)
    ensures LocalEffect(s, t, w)
  {
  }

  lemma DeletePageEffect(s: State, t: State, w: WorkerId)
    requires DeletePageStep(s, t, w)
    ensures LocalEffect(s, t, w)
  {
  }

  lemma SetPageEffect(s: State, t: State, w: WorkerId)
    requires SetPageStep(s, t, w)
    ensures LocalEffect(s, t, w)
  {
    if MarkProcessingStep(s, t, w) {
      MarkProcessingEffect(s, t, w);
    } else if MarkCompletedStep(s, t, w) {
      MarkCompletedEffect(s, t, w);
    } else {
      DeletePageEffect(s, t, w);
    }
  }

  lemma WriteEffect(s: State, t: State, w: WorkerId, sub: set<nat>, mirror: Table)
    requires WriteStep(s, t, w, sub, mirror)
    ensures LocalEffect(s, t, w)
  {
  }

  lemma LocalFrame(s: State, t: State, a: Step)
    requires IsLocal(a) && LocalNext(s, t, a)
    ensures LocalEffect(s, t, a.w)
  {
    match a
    case Spawn(w) => SpawnEffect(s, t, w);
    case Move(w, to) => MoveEffect(s, t, w, to);
    case StoreFetched(w, parts) => StoreEffect(s, t, w, parts);
    case SetPage(w) => SetPageEffect(s, t, w);
    case WriteRows(w, sub, mirror) => WriteEffect(s, t, w, sub, mirror);
  }

  ghost predicate PagesStay(s: State, t: State) {
    t.pages == s.pages && t.nextPage == s.nextPage && t.stored == s.stored && t.mirror == s.mirror
  }

  lemma QueueOthersStay(s: State, t: State, a: Step)
    requires IsQueueStep(a) && QueueNext(s, t, a)
    ensures OnlyMoves(s, t, a.w)
  {
  }

  lemma QueueFrame(s: State, t: State, a: Step)
    requires IsQueueStep(a) && QueueNext(s, t, a)
    ensures PagesStay(s, t)
    ensures t.tables.batches == s.tables.batches && t.tables.nextBatch == s.tables.nextBatch
    ensures t.announced == s.announced
  {
  }

  lemma ChunksMove(s: State, t: State, w: WorkerId, queue: string, now: int)
    requires BatchStep(s, t, w, queue, now)
    ensures OnlyMoves(s, t, w) && PagesStay(s, t)
  {
  }

  lemma CountedMoves(s: State, t: State, w: WorkerId)
    requires CountedStep(s, t, w)
    ensures OnlyMoves(s, t, w) && PagesStay(s, t)
  {
  }

  lemma CountDownMoves(s: State, t: State, w: WorkerId)
    requires CountDownStep(s, t, w)
    ensures OnlyMoves(s, t, w) && PagesStay(s, t)
  {
    if CountedStep(s, t, w) { CountedMoves(s, t, w); }
  }

  lemma FinishMoves(s: State, t: State, w: WorkerId, now: int)
    requires FinishStep(s, t, w, now)
    ensures OnlyMoves(s, t, w) && PagesStay(s, t)
  {
  }

  lemma AnnounceMoves(s: State, t: State, w: WorkerId, now: int)
    requires AnnounceStep(s, t, w, now)
    ensures OnlyMoves(s, t, w) && PagesStay(s, t)
  {
  }

  lemma BatchFrame(s: State, t: State, a: Step)
    requires IsBatchStep(a) && BatchNext(s, t, a)
    ensures OnlyMoves(s, t, a.w) && PagesStay(s, t)
  {
    match a
    case EnqueueChunks(w, queue, now) => ChunksMove(s, t, w, queue, now);
    case CountDownBatch(w) => CountDownMoves(s, t, w);
    case FinishBatch(w, now) => FinishMoves(s, t, w, now);
    case AnnounceBatch(w, now) => AnnounceMoves(s, t, w, now);
  }

  lemma OutsideFrame(s: State, t: State, a: Step)
    requires (a.EnqueuePlain? || a.OutsideWrite?) && OutsideNext(s, t, a)
    ensures t.workers == s.workers && t.pages == s.pages && t.nextPage == s.nextPage && t.stored == s.stored
    ensures t.tables.batches == s.tables.batches && t.tables.nextBatch == s.tables.nextBatch
    ensures t.children == s.children && t.announced == s.announced
  {
  }

  /** Only local steps touch the pages, their history and, but for outside writes, the mirror. */
  lemma PagesFrame(s: State, t: State, a: Step)
    requires Next(s, t, a) && !IsLocal(a)
    ensures t.pages == s.pages && t.nextPage == s.nextPage && t.stored == s.stored
    ensures t.mirror == s.mirror || a.OutsideWrite?
  {
    if IsQueueStep(a) {
      QueueFrame(s, t, a);
    } else if IsBatchStep(a) {
      BatchFrame(s, t, a);
    } else {
      OutsideFrame(s, t, a);
    }
  }

  /** A step moves no worker but its own. */
  lemma OthersStay(s: State, t: State, a: Step)
    requires Next(s, t, a)
    ensures forall v: WorkerId :: Actor(a) != Some(v) ==> PcOf(t, v) == PcOf(s, v)
  {
    if IsLocal(a) {
      LocalFrame(s, t, a);
    } else if IsQueueStep(a) {
      QueueOthersStay(s, t, a);
    } else if IsBatchStep(a) {
      BatchFrame(s, t, a);
    } else {
      OutsideFrame(s, t, a);
    }
  }

  lemma OnceQuiet(s: State, t: State)
    requires OnceInv(s) && t.announced == s.announced
    requires forall b :: b in t.tables.batches ==> b < t.tables.nextBatch
    requires forall b :: b in s.tables.batches ==>
      b in t.tables.batches && t.tables.batches[b].pending == s.tables.batches[b].pending
    requires forall w: WorkerId :: PcOf(t, w).Announcing? ==>
      PcOf(s, w).Announcing? && PcOf(s, w).batch == PcOf(t, w).batch
    ensures OnceInv(t)
  {
    assert forall b :: Announcements(t, b) == Announcements(s, b);
    assert forall b :: Drained(s, b) ==> Drained(t, b);
  }

  lemma OnceAfterCountDown(s: State, t: State, w: WorkerId)
    requires OnceInv(s) && CountedStep(s, t, w)
    ensures OnceInv(t)
  {
    var b := PcOf(s, w).batch;
    assert forall v: WorkerId :: v != w ==> PcOf(t, v) == PcOf(s, v);
    assert forall c :: Announcements(t, c) == Announcements(s, c);
    assert forall c :: c != b && Drained(s, c) ==> Drained(t, c);
    assert !Drained(s, b);
    assert PcOf(t, w).Announcing? ==> PcOf(t, w).batch == b && Drained(t, b);
  }

  lemma AnnounceFrame(t: Tables<Task>, b: BatchId, queue: string, now: int)
    ensures var u := JobTables.Announce(t, b, queue, now);
      u.batches == t.batches && u.nextBatch == t.nextBatch && u.failed == t.failed
  {
  }

  lemma OnceAfterAnnounce(s: State, t: State, w: WorkerId, now: int)
    requires OnceInv(s) && AnnounceStep(s, t, w, now)
    ensures OnceInv(t)
  {
    var b := PcOf(s, w).batch;
    assert forall v: WorkerId :: v != w ==> PcOf(t, v) == PcOf(s, v);
    AnnounceFrame(s.tables, b, PcOf(s, w).queue, now);
    assert forall c :: Announcements(t, c) == if c == b then Announcements(s, c) + 1 else Announcements(s, c);
    assert forall c :: Drained(s, c) ==> Drained(t, c);
  }

  lemma OnceAfterBatch(s: State, t: State, w: WorkerId, queue: string, now: int)
    requires OnceInv(s) && BatchStep(s, t, w, queue, now)
    ensures OnceInv(t)
  {
    assert forall v: WorkerId :: v != w ==> PcOf(t, v) == PcOf(s, v);
    BatchInsertedFrame(s.tables, PcOf(s, w).page, PcOf(s, w).chunks, queue, now);
    OnceQuiet(s, t);
  }

  lemma LocalOnce(s: State, t: State, a: Step)
    requires OnceInv(s) && IsLocal(a) && LocalNext(s, t, a)
    ensures OnceInv(t)
  {
    LocalFrame(s, t, a);
    assert forall w: WorkerId :: NoNewAnnouncing(PcOf(s, w), PcOf(t, w));
    OnceQuiet(s, t);
  }

  lemma QueueOnce(s: State, t: State, a: Step)
    requires OnceInv(s) && IsQueueStep(a) && QueueNext(s, t, a)
    ensures OnceInv(t)
  {
    QueueFrame(s, t, a);
    QueueOthersStay(s, t, a);
    assert NoNewAnnouncing(PcOf(s, a.w), PcOf(t, a.w));
    assert forall w: WorkerId :: NoNewAnnouncing(PcOf(s, w), PcOf(t, w));
    OnceQuiet(s, t);
  }

  lemma CountNothing(s: State, t: State, w: WorkerId)
    requires RefusedStep(s, t, w)
    ensures t.announced == s.announced && t.tables == s.tables && NoNewAnnouncing(PcOf(s, w), PcOf(t, w))
  {
  }

  lemma FinishMarks(s: State, t: State, w: WorkerId, now: int)
    requires FinishStep(s, t, w, now)
    ensures t.announced == s.announced && t.tables.nextBatch == s.tables.nextBatch
    ensures t.tables.batches.Keys == s.tables.batches.Keys
    ensures forall b :: b in s.tables.batches ==>
      t.tables.batches[b].(finishedAt := None) == s.tables.batches[b].(finishedAt := None)
    ensures NoNewAnnouncing(PcOf(s, w), PcOf(t, w))
  {
  }

  lemma BatchOnce(s: State, t: State, a: Step)
    requires OnceInv(s) && IsBatchStep(a) && BatchNext(s, t, a)
    ensures OnceInv(t)
  {
    if a.CountDownBatch? && CountedStep(s, t, a.w) {
      OnceAfterCountDown(s, t, a.w);
    } else if a.AnnounceBatch? {
      OnceAfterAnnounce(s, t, a.w, a.now);
    } else if a.EnqueueChunks? {
      OnceAfterBatch(s, t, a.w, a.queue, a.now);
    } else {
      BatchFrame(s, t, a);
      if a.FinishBatch? { FinishMarks(s, t, a.w, a.now); } else { CountNothing(s, t, a.w); }
      assert forall w: WorkerId :: NoNewAnnouncing(PcOf(s, w), PcOf(t, w));
      OnceQuiet(s, t);
    }
  }

  lemma OnceKept(s: State, t: State, a: Step)
    requires OnceInv(s) && Next(s, t, a)
    ensures OnceInv(t)
  {
    if IsLocal(a) {
      LocalOnce(s, t, a);
    } else if IsQueueStep(a) {
      QueueOnce(s, t, a);
    } else if IsBatchStep(a) {
      BatchOnce(s, t, a);
    } else {
      OutsideFrame(s, t, a);
      OnceQuiet(s, t);
    }
  }

  /** Whatever the timing of reclaims, a batch's completion job is enqueued at most once. */
  lemma {:induction false} FinalizeAtMostOnce(states: seq<State>, steps: seq<Step>, i: nat)
    requires Run(states, steps) && i < |states|
    ensures OnceInv(states[i]) && forall b :: Announcements(states[i], b) <= 1
  {
    if i > 0 {
      FinalizeAtMostOnce(states, steps, i - 1);
      OnceKept(states[i - 1], states[i], steps[i - 1]);
    }
  }
}
