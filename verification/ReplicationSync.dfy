/** The fetch and finalize handlers and the kickoff over the cursor and page tables
    (internal/service/sync/bridge_worker.go, internal/service/sync/spark_worker.go,
    internal/service/sync/kickoff.go, internal/service/sync/fetch_guard.go).

    A handler runs as one atomic step here. The upstream's answer is a parameter. */
module ReplicationSync {
  import opened Wrappers
  import opened Shared
  import opened SyncCursors
  import opened FetchChain

  type PageId = nat

  /** A row of replica_pages; active means status pending or processing. */
  datatype ReplicaPage = ReplicaPage(provider: Provider, dataset: string, mode: Mode, active: bool)

  datatype Job =
    | FetchJob(provider: Provider, args: FetchArgs)
    | FinalizeJob(provider: Provider, finalize: FinalizeArgs)
    | PersistBatch(provider: Provider, page: PageId, onComplete: FinalizeArgs)
    | EnrichKickoff

  datatype Tables = Tables(cursors: map<string, Cursor>, pages: map<PageId, ReplicaPage>, nextPage: PageId,
                           sent: seq<Job>)
  {
    ghost predicate Valid() { forall p :: p in pages ==> p < nextPage }
  }

  // ---- Specification -----------------------------------------------------------------------------

  predicate ActivePage(pages: map<PageId, ReplicaPage>, p: PageId, provider: Provider, dataset: string) {
    p in pages && pages[p].provider == provider && pages[p].dataset == dataset && pages[p].active
  }

  predicate HasActivePage(pages: map<PageId, ReplicaPage>, provider: Provider, dataset: string) {
    exists p :: p in pages && ActivePage(pages, p, provider, dataset)
  }

  /** skipReplicationFetchWhenPageActive. */
  predicate SkipFetch(pages: map<PageId, ReplicaPage>, provider: Provider, dataset: string, mode: Mode) {
    mode.Replication? && HasActivePage(pages, provider, dataset)
  }

  function Patched(t: Tables, dataset: string, p: Patch, now: Time): Tables {
    t.(cursors := t.cursors[dataset := Merge(RowOf(t.cursors, dataset), p, now)])
  }

  function Sent(t: Tables, job: Job): Tables { t.(sent := t.sent + [job]) }

  /** The answer ends the run: nothing was returned and nothing more is announced. */
  predicate Exhausted(cfg: Config, mode: Mode, r: PageResult) {
    r.rows == [] && !r.hasMore && (mode.Incremental? || (mode.NavHydrate? && cfg.provider.Bridge?))
  }

  function Dispatched(t: Tables, cfg: Config, args: FetchArgs, r: PageResult): Tables {
    var plan := ContinuationPlan(cfg, args, r);
    if r.rows == [] then Sent(t, FinalizeJob(cfg.provider, BuildFinalizeArgs(args.dataset, None, plan)))
    else
      var p := t.nextPage;
      Sent(t.(pages := t.pages[p := ReplicaPage(cfg.provider, args.dataset, args.mode, true)], nextPage := p + 1),
           PersistBatch(cfg.provider, p, BuildFinalizeArgs(args.dataset, Some(p), plan)))
  }

  function Answered(t: Tables, cfg: Config, args: FetchArgs, r: PageResult, now: Time): Tables {
    if r.forbidden
    then Patched(t, args.dataset, NO_PATCH.(applyReplicationState := true, inProgress := Some(false)), now)
    else if r.httpError then t
    else if Exhausted(cfg, args.mode, r) then
      var windowEnd := if cfg.provider.Spark? then r.windowEnd else None;
      Sent(Patched(t, args.dataset, NO_PATCH.(markFinished := true, windowEnd := windowEnd), now), EnrichKickoff)
    else
      var u := if args.mode.Replication? && r.rows != []
        then Patched(t, args.dataset, NO_PATCH.(inProgress := Some(true)), now)
        else t;
      Dispatched(u, cfg, args, r)
  }

  /** The whole of FetchPage. */
  function Fetched(t: Tables, cfg: Config, args: FetchArgs, r: PageResult, now: Time): Tables {
    if args.dataset == "" || (cfg.maxChain > 0 && args.depth >= cfg.maxChain) then t
    else
      var u := t.(cursors := t.cursors[args.dataset := RowOf(t.cursors, args.dataset)]);
      if args.mode.Incremental? && u.cursors[args.dataset].inProgress then u
      else if SkipFetch(u.pages, cfg.provider, args.dataset, args.mode) then u
      else Answered(u, cfg, args, r, now)
  }

  function WithoutPage(pages: map<PageId, ReplicaPage>, page: Option<PageId>): map<PageId, ReplicaPage> {
    if page.Some? then pages - {page.value} else pages
  }

  /** At most one fetch follows a finalize, the one that its arguments name, or else the enrichment kickoff. */
  function SentNext(sent: seq<Job>, provider: Provider, args: FinalizeArgs): seq<Job> {
    var next := Successor(args);
    if next.Some? then sent + [FetchJob(provider, next.value)]
    else if args.markFinished then sent + [EnrichKickoff] else sent
  }

  /** The whole of PersistFinalize. */
  function Finalized(t: Tables, provider: Provider, args: FinalizeArgs, now: Time): Tables {
    var u := if FinalizePatch(args).Some? then Patched(t, args.dataset, FinalizePatch(args).value, now) else t;
    u.(pages := WithoutPage(u.pages, args.page), sent := SentNext(u.sent, provider, args))
  }

  /** dispatchDataset; poll stands for the freshness and interval tests of tryIncrementalKickoff. */
  function KickedOff(t: Tables, provider: Provider, dataset: string, seeded: bool, poll: bool): Tables {
    if HasActivePage(t.pages, provider, dataset) then t
    else
      var u := t.(cursors := t.cursors[dataset := RowOf(t.cursors, dataset)]);
      var c := u.cursors[dataset];
      if ReplicationChainActive(c) then u
      else if ShouldKickoffReplication(c, seeded)
        then Sent(u, FetchJob(provider, FetchArgs(dataset, Replication, 0, 0)))
      else if poll && ShouldRunIncremental(c) then Sent(u, FetchJob(provider, FetchArgs(dataset, Incremental, 0, 0)))
      else u
  }

  // ---- The handlers ------------------------------------------------------------------------------

  class SyncWorker {
    const cfg: Config
    var cursors: CursorStore
    var pages: map<PageId, ReplicaPage>
    var nextPage: PageId
    var sent: seq<Job>

    ghost function View(): Tables reads this, cursors { Tables(cursors.rows, pages, nextPage, sent) }

    constructor (config: Config)
      ensures cfg == config && fresh(cursors) && View() == Tables(map[], map[], 0, [])
    {
      cfg := config;
      cursors := new CursorStore();
      pages := map[];
      nextPage := 0;
      sent := [];
    }

    /** replica_pages is searched for an active row of the dataset. */
    method FindActivePage(dataset: string) returns (active: bool)
      ensures active == HasActivePage(pages, cfg.provider, dataset)
    {
      active := false;
      var todo := pages.Keys;
      while todo != {}
        invariant todo <= pages.Keys
        invariant active <==> exists p :: p !in todo && ActivePage(pages, p, cfg.provider, dataset)
      {
        var p :| p in todo;
        if pages[p].provider == cfg.provider && pages[p].dataset == dataset && pages[p].active {
          active := true;
        }
        todo := todo - {p};
      }
    }

    method FetchPage(args: FetchArgs, answer: PageResult, now: Time) returns (ok: bool)
      modifies this, cursors
      ensures View() == Fetched(old(View()), cfg, args, answer, now) && cursors == old(cursors)
    {
      if args.dataset == "" {
        return false;
      }
      if cfg.maxChain > 0 && args.depth >= cfg.maxChain {
        return true;
      }
      var cursor := cursors.ForDataset(args.dataset);
      if args.mode.Incremental? && cursor.inProgress {
        return true;
      }
      if args.mode.Replication? {
        var active := FindActivePage(args.dataset);
        if active {
          return true;
        }
      }
      ok := HandleAnswer(args, answer, now);
    }

    method HandleAnswer(args: FetchArgs, answer: PageResult, now: Time) returns (ok: bool)
      modifies this, cursors
      ensures View() == Answered(old(View()), cfg, args, answer, now) && cursors == old(cursors)
    {
      if answer.forbidden {
        cursors.ApplyPatch(args.dataset, NO_PATCH.(applyReplicationState := true, inProgress := Some(false)), now);
        return true;
      }
      if answer.httpError {
        return false;
      }
      if Exhausted(cfg, args.mode, answer) {
        var patch := NO_PATCH.(markFinished := true);
        if cfg.provider.Spark? {
          patch := patch.(windowEnd := answer.windowEnd);
        }
        cursors.ApplyPatch(args.dataset, patch, now);
        sent := sent + [EnrichKickoff];
        return true;
      }
      if args.mode.Replication? && answer.rows != [] {
        cursors.ApplyPatch(args.dataset, NO_PATCH.(inProgress := Some(true)), now);
      }
      DispatchPersistBatch(args, answer);
      ok := true;
    }

    method DispatchPersistBatch(args: FetchArgs, answer: PageResult)
      modifies this
      ensures View() == Dispatched(old(View()), cfg, args, answer) && cursors == old(cursors)
    {
      var plan := ContinuationPlan(cfg, args, answer);
      if |answer.rows| == 0 {
        sent := sent + [FinalizeJob(cfg.provider, BuildFinalizeArgs(args.dataset, None, plan))];
        return;
      }
      var page := nextPage;
      pages, nextPage := pages[page := ReplicaPage(cfg.provider, args.dataset, args.mode, true)], page + 1;
      sent := sent + [PersistBatch(cfg.provider, page, BuildFinalizeArgs(args.dataset, Some(page), plan))];
    }

    method PersistFinalize(args: FinalizeArgs, now: Time)
      modifies this, cursors
      ensures View() == Finalized(old(View()), cfg.provider, args, now) && cursors == old(cursors)
    {
      var patch := FinalizePatch(args);
      if patch.Some? {
        cursors.ApplyPatch(args.dataset, patch.value, now);
      }
      if args.page.Some? {
        var page := args.page.value;
        if page in pages {
          pages := pages[page := pages[page].(active := false)];
        }
        pages := pages - {page};
      }
      assert pages == WithoutPage(old(pages), args.page);
      hide FinalizePatch, Patched, WithoutPage;
      SendNext(args);
    }

    /** The tail of the handler: one successor, or the enrichment kickoff, or nothing. */
    method SendNext(args: FinalizeArgs)
      modifies this`sent
      ensures sent == SentNext(old(sent), cfg.provider, args)
    {
      if args.dispatchIncremental {
        sent := sent + [FetchJob(cfg.provider, FetchArgs(args.dataset, Incremental, 0, 0))];
        return;
      }
      if args.next.Some? {
        var (mode, skip, depth) := args.next.value;
        sent := sent + [FetchJob(cfg.provider, FetchArgs(args.dataset, mode, skip, depth))];
        return;
      }
      if args.markFinished {
        sent := sent + [EnrichKickoff];
      }
    }

    method DispatchDataset(dataset: string, seeded: bool, poll: bool)
      modifies this, cursors
      ensures View() == KickedOff(old(View()), cfg.provider, dataset, seeded, poll) && cursors == old(cursors)
    {
      var active := FindActivePage(dataset);
      if active {
        return;
      }
      var cursor := cursors.ForDataset(dataset);
      if ReplicationChainActive(cursor) {
        return;
      }
      if !seeded {
        sent := sent + [FetchJob(cfg.provider, FetchArgs(dataset, Replication, 0, 0))];
        return;
      }
      if poll && ShouldRunIncremental(cursor) {
        sent := sent + [FetchJob(cfg.provider, FetchArgs(dataset, Incremental, 0, 0))];
      }
    }
  }

  // ---- At most one replication page --------------------------------------------------------------

  datatype Step =
    | Fetch(cfg: Config, fetch: FetchArgs, answer: PageResult, now: Time)
    | Finalize(provider: Provider, args: FinalizeArgs, now: Time)
    | Kickoff(provider: Provider, dataset: string, seeded: bool, poll: bool)

  function Apply(t: Tables, a: Step): Tables {
    match a
    case Fetch(cfg, args, answer, now) => Fetched(t, cfg, args, answer, now)
    case Finalize(provider, args, now) => Finalized(t, provider, args, now)
    case Kickoff(provider, dataset, seeded, poll) => KickedOff(t, provider, dataset, seeded, poll)
  }

  function After(t: Tables, steps: seq<Step>): Tables {
    if steps == [] then t else Apply(After(t, steps[..|steps| - 1]), steps[|steps| - 1])
  }

  predicate ReplicationPage(pages: map<PageId, ReplicaPage>, p: PageId, provider: Provider, dataset: string) {
    ActivePage(pages, p, provider, dataset) && pages[p].mode.Replication?
  }

  ghost predicate OnePage(pages: map<PageId, ReplicaPage>) {
    forall p, q, provider, dataset ::
      ReplicationPage(pages, p, provider, dataset) && ReplicationPage(pages, q, provider, dataset) ==> p == q
  }

  /** A fetch stores a page only under a new id, and a replication page only where none is active. */
  lemma FetchStoresGuarded(t: Tables, cfg: Config, args: FetchArgs, r: PageResult, now: Time)
    requires t.Valid()
    ensures var u := Fetched(t, cfg, args, r, now);
      u.pages == t.pages ||
      (u.pages == t.pages[t.nextPage := ReplicaPage(cfg.provider, args.dataset, args.mode, true)] &&
        u.nextPage == t.nextPage + 1 &&
       (args.mode.Replication? ==> !HasActivePage(t.pages, cfg.provider, args.dataset)))
    ensures Fetched(t, cfg, args, r, now).Valid()
  {
  }

  lemma OnePageKept(t: Tables, a: Step)
    requires t.Valid() && OnePage(t.pages)
    ensures Apply(t, a).Valid() && OnePage(Apply(t, a).pages)
  {
    var u := Apply(t, a);
    if a.Fetch? {
      FetchStoresGuarded(t, a.cfg, a.fetch, a.answer, a.now);
      forall p, provider, dataset | ReplicationPage(u.pages, p, provider, dataset)
        ensures p == t.nextPage || ReplicationPage(t.pages, p, provider, dataset)
      {
      }
    } else {
      assert forall p, provider, dataset :: ReplicationPage(u.pages, p, provider, dataset) ==>
        ReplicationPage(t.pages, p, provider, dataset);
    }
  }

  /** However fetches, finalizes and kickoffs interleave, at most one replication page per provider and
      dataset is active. */
  lemma {:induction false} AtMostOneReplicationPage(steps: seq<Step>)
    ensures var t := After(Tables(map[], map[], 0, []), steps); t.Valid() && OnePage(t.pages)
  {
    if steps != [] {
      AtMostOneReplicationPage(steps[..|steps| - 1]);
      OnePageKept(After(Tables(map[], map[], 0, []), steps[..|steps| - 1]), steps[|steps| - 1]);
    }
  }
}
