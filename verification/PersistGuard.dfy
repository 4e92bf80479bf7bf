/** What the page guard rests on: a page stays active until its batch has been announced, it has one batch only,
    and after the announcement nobody writes it any more (internal/service/sync/fetch_guard.go,
    internal/service/sync/replica_page.go, internal/service/sync/bridge_worker.go). */
module PersistGuard {
  import opened Wrappers
  import opened JobTables
  import opened ListingMirror
  import opened PersistProtocol
  import opened PersistAccounting
  import opened PersistHydration
  import opened PersistCounting

  /** The page is in the page table and not completed: the fetch guard finds it. */
  predicate Active(s: State, p: PageId) { p in s.pages && !s.pages[p].status.Completed? }

  /** The completion job of page p has been enqueued. */
  ghost predicate Announced(s: State, p: PageId) {
    exists b :: Announcements(s, b) > 0 && FinalizedPage(s, b) == Some(p)
  }

  // ---- Announcements stay ------------------------------------------------------------------------

  /** Batches stay, with their completion jobs. */
  ghost predicate BatchesStay(t: Tables<Task>, u: Tables<Task>) {
    forall b :: b in t.batches ==> b in u.batches && u.batches[b].onComplete == t.batches[b].onComplete
  }

  lemma CountDownStays(s: State, t: State, w: WorkerId)
    requires CountDownStep(s, t, w)
    ensures BatchesStay(s.tables, t.tables) && t.announced == s.announced
  {
  }

  lemma FinishStays(s: State, t: State, w: WorkerId, now: int)
    requires FinishStep(s, t, w, now)
    ensures BatchesStay(s.tables, t.tables) && t.announced == s.announced
  {
  }

  lemma ChunksStay(s: State, t: State, w: WorkerId, queue: string, now: int)
    requires OnceInv(s) && BatchStep(s, t, w, queue, now)
    ensures BatchesStay(s.tables, t.tables) && t.announced == s.announced
  {
    BatchInsertedFrame(s.tables, PcOf(s, w).page, PcOf(s, w).chunks, queue, now);
  }

  lemma AnnounceStays(s: State, t: State, w: WorkerId, now: int)
    requires AnnounceStep(s, t, w, now)
    ensures BatchesStay(s.tables, t.tables) && forall b :: Announcements(s, b) <= Announcements(t, b)
  {
    AnnounceFrame(s.tables, PcOf(s, w).batch, PcOf(s, w).queue, now);
  }

  lemma CountsStay(s: State, t: State, a: Step)
    requires OnceInv(s) && Next(s, t, a)
    ensures BatchesStay(s.tables, t.tables) && forall b :: Announcements(s, b) <= Announcements(t, b)
  {
    if IsLocal(a) {
      LocalFrame(s, t, a);
    } else if IsQueueStep(a) {
      QueueFrame(s, t, a);
    } else if IsBatchStep(a) {
      match a
      case EnqueueChunks(w, queue, now) => ChunksStay(s, t, w, queue, now);
      case CountDownBatch(w) => CountDownStays(s, t, w);
      case FinishBatch(w, now) => FinishStays(s, t, w, now);
      case AnnounceBatch(w, now) => AnnounceStays(s, t, w, now);
    } else {
      OutsideFrame(s, t, a);
    }
  }

  lemma AnnouncedStays(s: State, t: State, p: PageId)
    requires BatchesStay(s.tables, t.tables) && forall b :: Announcements(s, b) <= Announcements(t, b)
    requires Announced(s, p)
    ensures Announced(t, p)
  {
    var b :| Announcements(s, b) > 0 && FinalizedPage(s, b) == Some(p);
    assert Announcements(t, b) > 0 && FinalizedPage(t, b) == Some(p);
  }

  lemma {:induction false} AnnouncedForGood(states: seq<State>, steps: seq<Step>, p: PageId, i: nat, j: nat)
    requires Run(states, steps) && i <= j < |states| && Announced(states[i], p)
    ensures Announced(states[j], p)
  {
    hide Next, Announced, OnceInv, Announcements;
    if i < j {
      AnnouncedForGood(states, steps, p, i, j - 1);
      FinalizeAtMostOnce(states, steps, j - 1);
      CountsStay(states[j - 1], states[j], steps[j - 1]);
      AnnouncedStays(states[j - 1], states[j], p);
    }
  }

  // ---- Active until announced --------------------------------------------------------------------

  ghost predicate TargetAnnounced(s: State, task: Task) {
    TargetOf(task).Some? ==> Announced(s, TargetOf(task).value)
  }

  ghost predicate JobTargets(s: State) {
    forall id :: id in s.tables.jobs ==> TargetAnnounced(s, s.tables.jobs[id].task)
  }

  ghost predicate HeldTarget(s: State, p: Pc) {
    Held(p).Some? ==> TargetAnnounced(s, Held(p).value.job.task)
  }

  ghost predicate InactiveAnnounced(s: State) {
    forall p :: p in s.stored && !Active(s, p) ==> Announced(s, p)
  }

  /** Completion jobs name announced pages, and a page that is not active is announced. */
  ghost predicate TargetsMatch(s: State) {
    JobTargets(s) && (forall w: WorkerId :: HeldTarget(s, PcOf(s, w))) && InactiveAnnounced(s)
  }

  /** What was announced still is. */
  ghost predicate Keeps(s: State, t: State) {
    forall p :: Announced(s, p) ==> Announced(t, p)
  }

  /** Every job was there before with the same task, or is no completion job. */
  ghost predicate SameTasks(t: Tables<Task>, u: Tables<Task>) {
    forall id :: id in u.jobs ==>
      TargetOf(u.jobs[id].task).None? || (id in t.jobs && u.jobs[id].task == t.jobs[id].task)
  }

  lemma SameTasksKeepTargets(s: State, t: State)
    requires JobTargets(s) && Keeps(s, t) && SameTasks(s.tables, t.tables)
    ensures JobTargets(t)
  {
    forall id | id in t.tables.jobs ensures TargetAnnounced(t, t.tables.jobs[id].task) {
      if id in s.tables.jobs { assert TargetAnnounced(s, s.tables.jobs[id].task); }
    }
  }

  lemma ReserveSameTasks(s: State, t: State, w: WorkerId, queue: string, now: int, before: int)
    requires ReserveStep(s, t, w, queue, now, before)
    ensures SameTasks(s.tables, t.tables) && PcOf(t, w).Holding?
    ensures PcOf(t, w).r.id in t.tables.jobs && PcOf(t, w).r.job == t.tables.jobs[PcOf(t, w).r.id]
  {
    var id := Candidate(s.tables, [queue], now, before).value;
    assert id in Reclaim(s.tables, now, before).jobs;
    ReserveSameWork(s.tables, id, now, before);
  }

  lemma ReleaseSameTasks(s: State, t: State, w: WorkerId, availableAt: int)
    requires ReleaseStep(s, t, w, availableAt)
    ensures SameTasks(s.tables, t.tables) && PcOf(t, w).Idle?
  {
    ReleaseSameWork(s.tables, PcOf(s, w).r.id, availableAt);
  }

  lemma RecordSameTasks(s: State, t: State, w: WorkerId)
    requires RecordStep(s, t, w)
    ensures SameTasks(s.tables, t.tables) && Held(PcOf(t, w)) == Held(PcOf(s, w))
  {
  }

  lemma DeleteSameTasks(s: State, t: State, w: WorkerId)
    requires DeleteStep(s, t, w)
    ensures SameTasks(s.tables, t.tables) && Held(PcOf(t, w)).None?
  {
  }

  lemma ChunksSameTasks(s: State, t: State, w: WorkerId, queue: string, now: int)
    requires s.tables.Valid() && BatchStep(s, t, w, queue, now)
    ensures SameTasks(s.tables, t.tables) && Held(PcOf(t, w)) == Held(PcOf(s, w))
  {
    var p := PcOf(s, w);
    BatchInsertedJobs(s.tables, p.page, p.chunks, queue, now);
    forall id | id in t.tables.jobs && id !in s.tables.jobs ensures TargetOf(t.tables.jobs[id].task).None? {
      assert ChildJob(t.tables.jobs[id], Child(s.tables.nextBatch, p.page, id - s.tables.nextJob + 1, Live));
    }
  }

  lemma CountDownSameTasks(s: State, t: State, w: WorkerId)
    requires CountDownStep(s, t, w)
    ensures SameTasks(s.tables, t.tables) && Held(PcOf(t, w)).None?
  {
    if CountedStep(s, t, w) { CountedUnclaimed(s, t, w); }
  }

  lemma FinishSameTasks(s: State, t: State, w: WorkerId, now: int)
    requires FinishStep(s, t, w, now)
    ensures SameTasks(s.tables, t.tables) && Held(PcOf(t, w)).None?
  {
  }

  /** The job that an announcement adds names the page that it announces. */
  lemma AnnounceTargets(s: State, t: State, w: WorkerId, now: int)
    requires JobTargets(s) && Keeps(s, t) && AnnounceStep(s, t, w, now)
    ensures JobTargets(t) && Held(PcOf(t, w)).None?
  {
    var b := PcOf(s, w).batch;
    AnnounceFrame(s.tables, b, PcOf(s, w).queue, now);
    assert Announcements(t, b) > 0;
    forall id | id in t.tables.jobs ensures TargetAnnounced(t, t.tables.jobs[id].task) {
      if id in s.tables.jobs && t.tables.jobs[id] == s.tables.jobs[id] {
        assert TargetAnnounced(s, s.tables.jobs[id].task);
      } else {
        assert t.tables.jobs[id].task == t.tables.batches[b].onComplete.value.task;
        assert TargetOf(t.tables.jobs[id].task).Some? ==> FinalizedPage(t, b) == TargetOf(t.tables.jobs[id].task);
      }
    }
  }

  lemma PlainSameTasks(s: State, t: State, queue: string, task: Task, availableAt: int)
    requires EnqueueStep(s, t, queue, task, availableAt)
    ensures SameTasks(s.tables, t.tables)
  {
  }

  lemma HeldKept(s: State, t: State, p: Pc, q: Pc)
    requires Keeps(s, t) && HeldTarget(s, p) && (Held(q).Some? ==> Held(q) == Held(p))
    ensures HeldTarget(t, q)
  {
  }

  lemma QueueTargets(s: State, t: State, a: Step)
    requires IsQueueStep(a) && QueueNext(s, t, a)
    requires JobTargets(s) && HeldTarget(s, PcOf(s, a.w)) && Keeps(s, t)
    ensures JobTargets(t) && HeldTarget(t, PcOf(t, a.w))
  {
    hide SameTasks, Keeps, TargetAnnounced;
    match a
    case ReserveJob(w, queue, now, before) =>
      ReserveSameTasks(s, t, w, queue, now, before);
      SameTasksKeepTargets(s, t);
    case ReleaseAgain(w, availableAt) =>
      ReleaseSameTasks(s, t, w, availableAt);
      SameTasksKeepTargets(s, t);
    case RecordFailed(w) =>
      RecordSameTasks(s, t, w);
      SameTasksKeepTargets(s, t);
      HeldKept(s, t, PcOf(s, w), PcOf(t, w));
    case DeleteReserved(w) =>
      DeleteSameTasks(s, t, w);
      SameTasksKeepTargets(s, t);
  }

  lemma BatchTargets(s: State, t: State, a: Step)
    requires IsBatchStep(a) && BatchNext(s, t, a)
    requires s.tables.Valid() && JobTargets(s) && HeldTarget(s, PcOf(s, a.w)) && Keeps(s, t)
    ensures JobTargets(t) && HeldTarget(t, PcOf(t, a.w))
  {
    hide SameTasks, Keeps, TargetAnnounced;
    match a
    case EnqueueChunks(w, queue, now) =>
      ChunksSameTasks(s, t, w, queue, now);
      SameTasksKeepTargets(s, t);
      HeldKept(s, t, PcOf(s, w), PcOf(t, w));
    case CountDownBatch(w) =>
      CountDownSameTasks(s, t, w);
      SameTasksKeepTargets(s, t);
    case FinishBatch(w, now) =>
      FinishSameTasks(s, t, w, now);
      SameTasksKeepTargets(s, t);
    case AnnounceBatch(w, now) =>
      AnnounceTargets(s, t, w, now);
  }

  lemma LocalTargets(s: State, t: State, a: Step)
    requires IsLocal(a) && LocalNext(s, t, a)
    requires JobTargets(s) && HeldTarget(s, PcOf(s, a.w)) && Keeps(s, t)
    ensures JobTargets(t) && HeldTarget(t, PcOf(t, a.w))
  {
    hide Keeps, TargetAnnounced;
    LocalFrame(s, t, a);
    LocalStepIsQuiet(s, t, a);
    SameTasksKeepTargets(s, t);
    HeldKept(s, t, PcOf(s, a.w), PcOf(t, a.w));
  }

  lemma OwnTargets(s: State, t: State, a: Step)
    requires s.tables.Valid() && TargetsMatch(s) && Keeps(s, t) && Next(s, t, a)
    ensures JobTargets(t) && (Actor(a).Some? ==> HeldTarget(t, PcOf(t, a.w)))
  {
    hide LocalNext, QueueNext, BatchNext, JobTargets, HeldTarget, Keeps, InactiveAnnounced;
    if Actor(a).Some? { assert HeldTarget(s, PcOf(s, a.w)); }
    if IsLocal(a) {
      LocalTargets(s, t, a);
    } else if IsQueueStep(a) {
      QueueTargets(s, t, a);
    } else if IsBatchStep(a) {
      BatchTargets(s, t, a);
    } else {
      if a.EnqueuePlain? { PlainSameTasks(s, t, a.queue, a.task, a.availableAt); }
      SameTasksKeepTargets(s, t);
    }
  }

  // ---- The page table ----------------------------------------------------------------------------

  lemma StoreInactive(s: State, t: State, w: WorkerId, parts: seq<seq<Row>>)
    requires InactiveAnnounced(s) && Keeps(s, t) && PagesMatch(s) && StoreStep(s, t, w, parts)
    ensures InactiveAnnounced(t)
  {
    forall p | p in t.stored && !Active(t, p) ensures Announced(t, p) {
      assert p != s.nextPage;
      assert p in s.stored && !Active(s, p);
    }
  }

  lemma MarkProcessingInactive(s: State, t: State, w: WorkerId)
    requires InactiveAnnounced(s) && Keeps(s, t) && MarkProcessingStep(s, t, w)
    ensures InactiveAnnounced(t)
  {
    assert forall p :: p in t.stored && !Active(t, p) ==> p in s.stored && !Active(s, p);
  }

  lemma MarkCompletedInactive(s: State, t: State, w: WorkerId)
    requires InactiveAnnounced(s) && HeldTarget(s, PcOf(s, w)) && Keeps(s, t) && MarkCompletedStep(s, t, w)
    ensures InactiveAnnounced(t)
  {
    var target := TargetOf(PcOf(s, w).r.job.task).value;
    assert Held(PcOf(s, w)) == Some(PcOf(s, w).r);
    assert Announced(s, target);
    assert forall p :: p in t.stored && !Active(t, p) && p != target ==> p in s.stored && !Active(s, p);
  }

  lemma DeletePageInactive(s: State, t: State, w: WorkerId)
    requires InactiveAnnounced(s) && HeldTarget(s, PcOf(s, w)) && Keeps(s, t) && DeletePageStep(s, t, w)
    ensures InactiveAnnounced(t)
  {
    var target := TargetOf(PcOf(s, w).r.job.task).value;
    assert Held(PcOf(s, w)) == Some(PcOf(s, w).r);
    assert Announced(s, target);
    assert forall p :: p in t.stored && !Active(t, p) && p != target ==> p in s.stored && !Active(s, p);
  }

  lemma WriteInactive(s: State, t: State, w: WorkerId, sub: set<nat>, mirror: Table)
    requires InactiveAnnounced(s) && Keeps(s, t) && WriteStep(s, t, w, sub, mirror)
    ensures InactiveAnnounced(t)
  {
    WriteNotes(s, t, w, sub, mirror);
    assert forall p :: p in t.stored && !Active(t, p) ==> p in s.stored && !Active(s, p);
  }

  lemma PagesSameInactive(s: State, t: State)
    requires InactiveAnnounced(s) && Keeps(s, t) && t.pages == s.pages && t.stored == s.stored
    ensures InactiveAnnounced(t)
  {
    assert forall p :: p in t.stored && !Active(t, p) ==> p in s.stored && !Active(s, p);
  }

  lemma LocalInactive(s: State, t: State, a: Step)
    requires TargetsMatch(s) && PagesMatch(s) && Keeps(s, t) && IsLocal(a) && LocalNext(s, t, a)
    ensures InactiveAnnounced(t)
  {
    assert HeldTarget(s, PcOf(s, a.w));
    hide InactiveAnnounced, Keeps, PagesMatch, HeldTarget;
    match a
    case Spawn(w) =>
      SpawnKeepsPages(s, t, w);
      PagesSameInactive(s, t);
    case Move(w, to) =>
      MoveKeepsPages(s, t, w, to);
      PagesSameInactive(s, t);
    case StoreFetched(w, parts) => StoreInactive(s, t, w, parts);
    case SetPage(w) =>
      if MarkProcessingStep(s, t, w) {
        MarkProcessingInactive(s, t, w);
      } else if MarkCompletedStep(s, t, w) {
        MarkCompletedInactive(s, t, w);
      } else {
        DeletePageInactive(s, t, w);
      }
    case WriteRows(w, sub, mirror) => WriteInactive(s, t, w, sub, mirror);
  }

  lemma AllAnnouncedStay(s: State, t: State, a: Step)
    requires OnceInv(s) && Next(s, t, a)
    ensures Keeps(s, t)
  {
    hide Next, OnceInv, BatchesStay, Announcements;
    CountsStay(s, t, a);
    forall p | Announced(s, p) ensures Announced(t, p) { AnnouncedStays(s, t, p); }
  }

  lemma TargetsKept(s: State, t: State, a: Step)
    requires s.tables.Valid() && OnceInv(s) && PagesMatch(s) && TargetsMatch(s) && Next(s, t, a)
    ensures TargetsMatch(t)
  {
    hide Keeps, HeldTarget, JobTargets, InactiveAnnounced, LocalNext, OnceInv;
    AllAnnouncedStay(s, t, a);
    OwnTargets(s, t, a);
    OthersStay(s, t, a);
    if IsLocal(a) {
      LocalInactive(s, t, a);
    } else {
      PagesFrame(s, t, a);
      PagesSameInactive(s, t);
    }
    forall w: WorkerId ensures HeldTarget(t, PcOf(t, w)) {
      assert HeldTarget(s, PcOf(s, w));
      if Actor(a) != Some(w) { HeldKept(s, t, PcOf(s, w), PcOf(s, w)); }
    }
  }

  lemma GeneralIdsIssued(s: State)
    requires General(s)
    ensures IdsIssued(s.tables, s.children) && s.tables.Valid() && PagesMatch(s)
  {
  }

  lemma StartTargets(mirror: Table)
    ensures TargetsMatch(Start(mirror))
  {
  }

  lemma {:induction false} TargetsAlways(states: seq<State>, steps: seq<Step>, i: nat)
    requires Run(states, steps) && i < |states|
    ensures TargetsMatch(states[i])
  {
    hide Next, OnceInv, PagesMatch, TargetsMatch, General, Announcements;
    if i > 0 {
      TargetsAlways(states, steps, i - 1);
      GeneralAlways(states, steps, i - 1);
      FinalizeAtMostOnce(states, steps, i - 1);
      GeneralIdsIssued(states[i - 1]);
      TargetsKept(states[i - 1], states[i], steps[i - 1]);
    } else {
      StartTargets(states[0].mirror);
    }
  }

  /** In every run: while the completion job of a stored page has not been enqueued, the guard finds the page. */
  lemma ActiveUntilAnnounced(states: seq<State>, steps: seq<Step>, i: nat, p: PageId)
    requires Run(states, steps) && i < |states| && p in states[i].stored && !Active(states[i], p)
    ensures Announced(states[i], p)
  {
    TargetsAlways(states, steps, i);
  }

  // ---- One batch for each page -------------------------------------------------------------------

  /** A worker that has stored a page and not yet enqueued its batch. */
  predicate Enqueuing(p: Pc, page: PageId) { p.Stored? && p.page == page }

  /** Batches are of different pages. */
  ghost predicate OneBatch(s: State) {
    forall b, c :: b in s.tables.batches && c in s.tables.batches && FinalizedPage(s, b) == FinalizedPage(s, c) ==>
      b == c
  }

  /** A page that is still to get its batch has none, and only one worker is at it. */
  ghost predicate NoBatchYet(s: State, w: WorkerId) {
    PcOf(s, w).Stored? ==>
      && PcOf(s, w).page < s.nextPage
      && (forall b :: b in s.tables.batches ==> FinalizedPage(s, b) != Some(PcOf(s, w).page))
      && (forall v: WorkerId :: Enqueuing(PcOf(s, v), PcOf(s, w).page) ==> v == w)
  }

  ghost predicate PagesKnown(s: State) {
    forall b :: b in s.tables.batches ==> FinalizedPage(s, b).Some? && FinalizedPage(s, b).value < s.nextPage
  }

  /** A chunk job is of the page that its batch completes. */
  ghost predicate ChildPages(s: State) {
    forall id :: id in s.children ==>
      s.children[id].batch in s.tables.batches && FinalizedPage(s, s.children[id].batch) == Some(s.children[id].page)
  }

  ghost predicate BatchesApart(s: State) {
    OneBatch(s) && (forall w: WorkerId :: NoBatchYet(s, w)) && PagesKnown(s) && ChildPages(s)
  }

  /** No batch is added, the chunk jobs are the same but for their fates, and no page is added. */
  ghost predicate SamePages(s: State, t: State) {
    && (forall b :: b in t.tables.batches <==> b in s.tables.batches)
    && (forall b :: b in s.tables.batches ==> FinalizedPage(t, b) == FinalizedPage(s, b))
    && t.children.Keys == s.children.Keys && Continues(s.children, t.children)
    && t.nextPage == s.nextPage
    && forall w: WorkerId :: PcOf(t, w).Stored? ==> PcOf(t, w) == PcOf(s, w)
  }

  lemma SamePagesApart(s: State, t: State)
    requires BatchesApart(s) && SamePages(s, t)
    ensures BatchesApart(t)
  {
    forall id | id in t.children
      ensures t.children[id].batch in t.tables.batches
      ensures FinalizedPage(t, t.children[id].batch) == Some(t.children[id].page)
    {
      assert t.children[id].(fate := Live) == s.children[id].(fate := Live);
    }
    forall w: WorkerId ensures NoBatchYet(t, w) {
      assert NoBatchYet(s, w);
      forall v: WorkerId | PcOf(t, w).Stored? && Enqueuing(PcOf(t, v), PcOf(t, w).page) ensures v == w {
        assert Enqueuing(PcOf(s, v), PcOf(s, w).page);
      }
    }
  }

  lemma StoreApart(s: State, t: State, w: WorkerId, parts: seq<seq<Row>>)
    requires BatchesApart(s) && StoreStep(s, t, w, parts)
    ensures BatchesApart(t)
  {
    assert forall b :: FinalizedPage(t, b) == FinalizedPage(s, b);
    assert forall v: WorkerId :: v != w ==> PcOf(t, v) == PcOf(s, v);
    forall v: WorkerId ensures NoBatchYet(t, v) {
      assert NoBatchYet(s, v);
      forall u: WorkerId | PcOf(t, v).Stored? && Enqueuing(PcOf(t, u), PcOf(t, v).page) ensures u == v {
        if u != w && v != w { assert Enqueuing(PcOf(s, u), PcOf(s, v).page); }
        assert NoBatchYet(s, u);
      }
    }
  }

  lemma ChunksApart(s: State, t: State, w: WorkerId, queue: string, now: int)
    requires BatchesApart(s) && OnceInv(s) && IdsIssued(s.tables, s.children) && BatchStep(s, t, w, queue, now)
    ensures BatchesApart(t)
  {
    var p, b := PcOf(s, w), s.tables.nextBatch;
    BatchInsertedFrame(s.tables, p.page, p.chunks, queue, now);
    assert FinalizedPage(t, b) == Some(p.page);
    assert forall c :: c in s.tables.batches ==> c != b && FinalizedPage(t, c) == FinalizedPage(s, c);
    assert NoBatchYet(s, w);
    ChunksMove(s, t, w, queue, now);
    forall v: WorkerId ensures NoBatchYet(t, v) {
      if v != w { StillNoBatch(s, t, w, v, b); }
    }
    NewChildPages(s, t, w, queue, now);
  }

  /** Another worker's page is still without a batch. */
  lemma StillNoBatch(s: State, t: State, w: WorkerId, v: WorkerId, b: BatchId)
    requires v != w && NoBatchYet(s, v) && PcOf(s, w).Stored? && OnlyMoves(s, t, w) && t.nextPage == s.nextPage
    requires forall c :: c in t.tables.batches ==> c == b || c in s.tables.batches
    requires forall c :: c in s.tables.batches ==> FinalizedPage(t, c) == FinalizedPage(s, c)
    requires FinalizedPage(t, b) == Some(PcOf(s, w).page) && !PcOf(t, w).Stored?
    ensures NoBatchYet(t, v)
  {
    if PcOf(t, v).Stored? {
      assert !Enqueuing(PcOf(s, w), PcOf(s, v).page);
      forall u: WorkerId | Enqueuing(PcOf(t, u), PcOf(t, v).page) ensures u == v {
        assert Enqueuing(PcOf(s, u), PcOf(s, v).page);
      }
    }
  }

  lemma NewChildPages(s: State, t: State, w: WorkerId, queue: string, now: int)
    requires ChildPages(s) && IdsIssued(s.tables, s.children) && BatchStep(s, t, w, queue, now)
    requires s.tables.nextBatch in t.tables.batches && FinalizedPage(t, s.tables.nextBatch) == Some(PcOf(s, w).page)
    requires forall c :: c in s.tables.batches ==> c in t.tables.batches && FinalizedPage(t, c) == FinalizedPage(s, c)
    ensures ChildPages(t)
  {
    NewChildrenAreLive(s, t, w, queue, now);
  }

  lemma MoveSamePages(s: State, t: State, w: WorkerId, q: Pc)
    requires MoveStep(s, t, w, q)
    ensures SamePages(s, t)
  {
  }

  lemma SpawnSamePages(s: State, t: State, w: WorkerId)
    requires SpawnStep(s, t, w)
    ensures SamePages(s, t)
  {
  }

  lemma SetPageSamePages(s: State, t: State, w: WorkerId)
    requires SetPageStep(s, t, w)
    ensures SamePages(s, t)
  {
    SetPageKeepsPages(s, t, w);
    SetPageEffect(s, t, w);
  }

  lemma WriteSamePages(s: State, t: State, w: WorkerId, sub: set<nat>, mirror: Table)
    requires WriteStep(s, t, w, sub, mirror)
    ensures SamePages(s, t)
  {
    WriteNotes(s, t, w, sub, mirror);
    WriteEffect(s, t, w, sub, mirror);
  }

  lemma DeleteSamePages(s: State, t: State, w: WorkerId)
    requires DeleteStep(s, t, w)
    ensures SamePages(s, t)
  {
    DeleteContinues(s, t, w);
  }

  lemma QueueSamePages(s: State, t: State, a: Step)
    requires IsQueueStep(a) && QueueNext(s, t, a)
    ensures SamePages(s, t)
  {
    QueueFrame(s, t, a);
    QueueOthersStay(s, t, a);
    QueueUnclaimed(s, t, a);
    if a.DeleteReserved? { DeleteSamePages(s, t, a.w); } else { QueueKeepsChildren(s, t, a); }
  }

  lemma CountDownSamePages(s: State, t: State, w: WorkerId)
    requires CountDownStep(s, t, w)
    ensures SamePages(s, t)
  {
    CountDownMoves(s, t, w);
    CountDownUnclaimed(s, t, w);
    CountDownContinues(s, t, w);
  }

  lemma FinishSamePages(s: State, t: State, w: WorkerId, now: int)
    requires FinishStep(s, t, w, now)
    ensures SamePages(s, t)
  {
    FinishMoves(s, t, w, now);
    FinishUnclaimed(s, t, w, now);
  }

  lemma AnnounceSamePages(s: State, t: State, w: WorkerId, now: int)
    requires AnnounceStep(s, t, w, now)
    ensures SamePages(s, t)
  {
    AnnounceFrame(s.tables, PcOf(s, w).batch, PcOf(s, w).queue, now);
    AnnounceMoves(s, t, w, now);
    AnnounceUnclaimed(s, t, w, now);
  }

  lemma OutsideSamePages(s: State, t: State, a: Step)
    requires (a.EnqueuePlain? || a.OutsideWrite?) && OutsideNext(s, t, a)
    ensures SamePages(s, t)
  {
    OutsideFrame(s, t, a);
  }

  lemma ApartKept(s: State, t: State, a: Step)
    requires BatchesApart(s) && OnceInv(s) && IdsIssued(s.tables, s.children) && Next(s, t, a)
    ensures BatchesApart(t)
  {
    hide BatchesApart, SamePages, OnceInv, IdsIssued;
    if a.StoreFetched? {
      StoreApart(s, t, a.w, a.parts);
    } else if a.EnqueueChunks? {
      ChunksApart(s, t, a.w, a.queue, a.now);
    } else {
      OtherStepSamePages(s, t, a);
      SamePagesApart(s, t);
    }
  }

  lemma OtherStepSamePages(s: State, t: State, a: Step)
    requires Next(s, t, a) && !a.StoreFetched? && !a.EnqueueChunks?
    ensures SamePages(s, t)
  {
    hide SamePages, QueueNext, OutsideNext;
    match a
    case Spawn(w) => SpawnSamePages(s, t, w);
    case Move(w, to) => MoveSamePages(s, t, w, to);
    case SetPage(w) => SetPageSamePages(s, t, w);
    case WriteRows(w, sub, mirror) => WriteSamePages(s, t, w, sub, mirror);
    case CountDownBatch(w) => CountDownSamePages(s, t, w);
    case FinishBatch(w, now) => FinishSamePages(s, t, w, now);
    case AnnounceBatch(w, now) => AnnounceSamePages(s, t, w, now);
    case EnqueuePlain(_, _, _) => OutsideSamePages(s, t, a);
    case OutsideWrite(_) => OutsideSamePages(s, t, a);
    case _ => QueueSamePages(s, t, a);
  }

  lemma StartApart(mirror: Table)
    ensures BatchesApart(Start(mirror))
  {
  }

  lemma {:induction false} ApartAlways(states: seq<State>, steps: seq<Step>, i: nat)
    requires Run(states, steps) && i < |states|
    ensures BatchesApart(states[i])
  {
    hide Next, OnceInv, BatchesApart, General, IdsIssued, Announcements;
    if i > 0 {
      ApartAlways(states, steps, i - 1);
      GeneralAlways(states, steps, i - 1);
      FinalizeAtMostOnce(states, steps, i - 1);
      GeneralIdsIssued(states[i - 1]);
      ApartKept(states[i - 1], states[i], steps[i - 1]);
    } else {
      StartApart(states[0].mirror);
    }
  }

  // ---- Quiet after the announcement --------------------------------------------------------------

  /** A worker that writes a chunk holds one of the page's live chunk jobs. */
  lemma WriterHoldsChild(s: State, w: WorkerId, p: PageId)
    requires Accounted(s) && PcOf(s, w).Writing?
    requires PcOf(s, w).r.job.task.PersistChunk? && PcOf(s, w).r.job.task.page == p
    ensures var id := PcOf(s, w).r.id; id in s.children && s.children[id].page == p && s.children[id].fate == Live
  {
    var r := PcOf(s, w).r;
    assert Held(PcOf(s, w)) == Some(r);
    assert Holds(s.tables, r);
    assert ChildJob(s.tables.jobs[r.id], s.children[r.id]);
  }

  lemma WriterMeansOwed(s: State, a: Step, p: PageId, b: BatchId)
    requires Accounted(s) && BatchesApart(s) && FinalizedPage(s, b) == Some(p) && WritesPage(s, a, p)
    ensures Owed(s.children, b) != {}
  {
    WriterHoldsChild(s, a.w, p);
    var id := PcOf(s, a.w).r.id;
    assert s.children[id].batch == b;
    assert id in Owed(s.children, b);
  }

  /** In every fail-stop run nobody writes a page whose completion job has been enqueued. */
  lemma AnnouncedIsQuiet(states: seq<State>, steps: seq<Step>, i: nat, p: PageId, a: Step)
    requires FailStopRun(states, steps) && i < |states| && Announced(states[i], p)
    ensures !WritesPage(states[i], a, p)
  {
    var s := states[i];
    var b :| Announcements(s, b) > 0 && FinalizedPage(s, b) == Some(p);
    AccountedAlways(states, steps, i);
    ApartAlways(states, steps, i);
    FailedChunkBlocksFinalize(states, steps, i, b);
    hide Accounted, BatchesApart, Announcements;
    if WritesPage(s, a, p) { WriterMeansOwed(s, a, p, b); }
  }
}
