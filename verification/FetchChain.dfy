/** How one fetch leads to the next: the continuation plan, the finalize job that carries it, and the
    chains they form (internal/service/sync/bridge_worker.go, internal/service/sync/spark_worker.go). */
module FetchChain {
  import opened Wrappers
  import opened Shared
  import opened SyncCursors

  datatype Mode = Replication | NavHydrate | Incremental

  datatype FetchArgs = FetchArgs(dataset: string, mode: Mode, skip: nat, depth: nat)

  /** The part of the configuration that the plan reads. */
  datatype Config = Config(provider: Provider, navHydrateAfterReplication: bool, incrementalTop: int, maxChain: int)

  /** An upstream answer: one timestamp per row, and what the provider said about more pages. */
  datatype PageResult = PageResult(rows: seq<Option<Time>>, forbidden: bool, httpError: bool, nextUrl: Option<string>,
                                   complete: bool, hasMore: bool, windowEnd: Option<Time>)

  datatype Plan = Plan(patch: Patch, dispatchIncremental: bool, next: Option<FetchArgs>)

  const SKIP_CAP := 10000

  function Top(cfg: Config): (top: nat)
    ensures top > 0
  {
    if cfg.incrementalTop > 0 then cfg.incrementalTop else if cfg.provider.Bridge? then 200 else 1000
  }

  predicate HasNext(r: PageResult) { !r.complete && r.nextUrl.Some? && r.nextUrl.value != "" }

  function NextSkip(cfg: Config, args: FetchArgs, mode: Mode): Option<FetchArgs> {
    if args.skip + Top(cfg) >= SKIP_CAP then None
    else Some(FetchArgs(args.dataset, mode, args.skip + Top(cfg), args.depth + 1))
  }

  /** continuationPlan of either worker; the Spark worker treats every other mode as incremental. */
  function ContinuationPlan(cfg: Config, args: FetchArgs, r: PageResult): Plan {
    var max := PageMaximum(r.rows);
    var windowEnd := if cfg.provider.Spark? then r.windowEnd else None;
    match args.mode
    case Replication =>
      var patch := Patch(true, r.nextUrl, Some(!r.complete), max, windowEnd, false);
      if HasNext(r) then Plan(patch, false, Some(FetchArgs(args.dataset, Replication, 0, args.depth + 1)))
      else if cfg.provider.Bridge? && r.complete && cfg.navHydrateAfterReplication
      then Plan(patch, false, Some(FetchArgs(args.dataset, NavHydrate, 0, args.depth + 1)))
      else Plan(patch, r.complete && max.Some?, None)
    case _ =>
      if cfg.provider.Bridge? && args.mode.NavHydrate? then
        var patch := Patch(false, None, None, max, None, false);
        var next := if r.hasMore then NextSkip(cfg, args, NavHydrate) else None;
        Plan(patch, next.None? && max.Some?, next)
      else
        var patch := Patch(false, None, None, max, windowEnd, !r.hasMore);
        Plan(patch, false, if r.hasMore then NextSkip(cfg, args, Incremental) else None)
  }

  // ---- The finalize job --------------------------------------------------------------------------

  datatype FinalizeArgs = FinalizeArgs(page: Option<nat>, dataset: string, applyReplicationState: bool,
                                       nextUrl: Option<string>, inProgress: Option<bool>,
                                       maxModification: Option<Time>, windowEnd: Option<Time>, markFinished: bool,
                                       dispatchIncremental: bool, next: Option<(Mode, nat, nat)>)

  function BuildFinalizeArgs(dataset: string, page: Option<nat>, plan: Plan): FinalizeArgs {
    var p := plan.patch;
    FinalizeArgs(page, dataset, p.applyReplicationState,
                 if p.applyReplicationState then p.nextUrl else None,
                 if p.applyReplicationState then p.inProgress else None,
                 Truncated(p.maxModification), Truncated(p.windowEnd), p.markFinished, plan.dispatchIncremental,
                 if plan.next.Some? then Some((plan.next.value.mode, plan.next.value.skip, plan.next.value.depth))
                   else None)
  }

  /** The patch that PersistFinalize applies, if any. */
  function FinalizePatch(args: FinalizeArgs): Option<Patch> {
    if args.applyReplicationState || args.maxModification.Some? || args.windowEnd.Some? || args.markFinished ||
      args.inProgress.Some?
    then Some(Patch(args.applyReplicationState, args.nextUrl, args.inProgress, args.maxModification, args.windowEnd,
      args.markFinished))
    else None
  }

  /** The fetch that PersistFinalize enqueues. */
  function Successor(args: FinalizeArgs): Option<FetchArgs> {
    if args.dispatchIncremental then Some(FetchArgs(args.dataset, Incremental, 0, 0))
    else if args.next.Some? then Some(FetchArgs(args.dataset, args.next.value.0, args.next.value.1, args.next.value.2))
    else None
  }

  /** The finalize job carries the whole plan: it leaves the cursor as the plan's patch would, with times cut
      to the second, and it enqueues the plan's next fetch, or an incremental one, never both and never less. */
  lemma FinalizeCarriesPlan(cfg: Config, args: FetchArgs, r: PageResult, page: Option<nat>, c: Cursor, now: Time)
    ensures var plan := ContinuationPlan(cfg, args, r);
      var done := BuildFinalizeArgs(args.dataset, page, plan);
      var cut := plan.patch.(maxModification := Truncated(plan.patch.maxModification),
        windowEnd := Truncated(plan.patch.windowEnd));
      && (if FinalizePatch(done).Some? then Merge(c, FinalizePatch(done).value, now) else c) == Merge(c, cut, now)
      && !(plan.dispatchIncremental && plan.next.Some?)
      && Successor(done) ==
         if plan.dispatchIncremental then Some(FetchArgs(args.dataset, Incremental, 0, 0)) else plan.next
  {
  }

  /** The cursor after the finalize job that a fetch leads to. */
  function CursorAfter(cfg: Config, args: FetchArgs, r: PageResult, page: Option<nat>, c: Cursor, now: Time): Cursor {
    var patch := FinalizePatch(BuildFinalizeArgs(args.dataset, page, ContinuationPlan(cfg, args, r)));
    if patch.Some? then Merge(c, patch.value, now) else c
  }

  predicate IsReplication(args: FetchArgs) { args.mode.Replication? }

  predicate IsIncremental(cfg: Config, args: FetchArgs) {
    args.mode.Incremental? || (args.mode.NavHydrate? && cfg.provider.Spark?)
  }

  /** What a finished page means for the cursor: replication is in progress exactly until the upstream says it
      is complete, and its next URL is kept; a sync is finished, and its window closed, exactly by an
      incremental page with no more to come; nothing else touches these columns. */
  lemma CursorOutcome(cfg: Config, args: FetchArgs, r: PageResult, page: Option<nat>, c: Cursor, now: Time)
    ensures var after := CursorAfter(cfg, args, r, page, c, now);
      && after.inProgress == (if IsReplication(args) then !r.complete else c.inProgress)
      && after.nextUrl == (if IsReplication(args) then r.nextUrl else c.nextUrl)
      && after.lastSyncFinished == (if IsIncremental(cfg, args) && !r.hasMore then Some(now) else c.lastSyncFinished)
      && (IsIncremental(cfg, args) && !r.hasMore ==> after.windowEnd.None?)
      && (cfg.provider.Bridge? && !(IsIncremental(cfg, args) && !r.hasMore) ==> after.windowEnd == c.windowEnd)
      && (PageMaximum(r.rows).None? ==> after.lastModification == c.lastModification)
  {
  }

  // ---- Chains ------------------------------------------------------------------------------------

  /** One executed fetch of a chain. pagesLeft is how many further replication pages the upstream has. */
  datatype Visit = Visit(args: FetchArgs, result: PageResult, pagesLeft: nat)

  function Next(cfg: Config, v: Visit): Option<FetchArgs> {
    Successor(BuildFinalizeArgs(v.args.dataset, None, ContinuationPlan(cfg, v.args, v.result)))
  }

  ghost predicate Follows(cfg: Config, v: Visit, u: Visit) {
    && Next(cfg, v) == Some(u.args)
    && (v.args.mode.Replication? && u.args.mode.Replication? ==> u.pagesLeft < v.pagesLeft)
  }

  /** Successive fetches, each enqueued by the finalize job of the one before. */
  ghost predicate Chain(cfg: Config, vs: seq<Visit>) {
    forall i :: 0 <= i < |vs| - 1 ==> Follows(cfg, vs[i], vs[i + 1])
  }

  function Phase(m: Mode): nat {
    match m
    case Replication => 0
    case NavHydrate => 1
    case Incremental => 2
  }

  /** ceil(10000 / top). */
  function SkipPages(cfg: Config): (n: nat)
    ensures (n - 1) * Top(cfg) < SKIP_CAP <= n * Top(cfg)
  {
    (SKIP_CAP + Top(cfg) - 1) / Top(cfg)
  }

  /** What one step of a chain can be. */
  lemma StepKinds(cfg: Config, v: Visit, u: Visit)
    requires Follows(cfg, v, u)
    ensures Phase(v.args.mode) <= Phase(u.args.mode)
    ensures v.args.mode == u.args.mode && !v.args.mode.Replication? ==>
      u.args.skip == v.args.skip + Top(cfg) < SKIP_CAP && u.args.depth == v.args.depth + 1
    ensures v.args.mode != u.args.mode && (cfg.provider.Bridge? || v.args.mode.Replication?) ==> u.args.skip == 0
    ensures u.args.depth == v.args.depth + 1 ||
      (u.args.depth == 0 && !v.args.mode.Incremental? && u.args.mode.Incremental?)
  {
  }

  /** Phases only move forward: replication, then nav_hydrate, then incremental. */
  lemma {:induction false} PhasesMoveForward(cfg: Config, vs: seq<Visit>, i: nat, j: nat)
    requires Chain(cfg, vs) && i <= j < |vs|
    ensures Phase(vs[i].args.mode) <= Phase(vs[j].args.mode)
  {
    if i < j {
      PhasesMoveForward(cfg, vs, i, j - 1);
      StepKinds(cfg, vs[j - 1], vs[j]);
    }
  }

  lemma OneMore(k: nat, top: nat)
    requires k > 0
    ensures k * top == (k - 1) * top + top
  {
  }

  lemma {:induction false} SkipGrows(cfg: Config, vs: seq<Visit>, i: nat, j: nat)
    requires Chain(cfg, vs) && i < j < |vs| && vs[i].args.mode == vs[j].args.mode && !vs[i].args.mode.Replication?
    ensures vs[j].args.skip == vs[i].args.skip + (j - i) * Top(cfg) < SKIP_CAP
  {
    hide Follows, Top;
    PhasesMoveForward(cfg, vs, i, j - 1);
    PhasesMoveForward(cfg, vs, j - 1, j);
    StepKinds(cfg, vs[j - 1], vs[j]);
    if i < j - 1 {
      SkipGrows(cfg, vs, i, j - 1);
    }
    OneMore(j - i, Top(cfg));
  }

  lemma {:induction false} TimesMonotone(a: nat, b: nat, c: nat)
    requires a <= b
    ensures a * c <= b * c
  {
    if a < b {
      TimesMonotone(a, b - 1, c);
      assert b * c == (b - 1) * c + c;
    }
  }

  /** A skip-based phase visits at most ceil(10000 / top) pages: two visits of the same phase are fewer
      than that many steps apart. */
  lemma SkipPhaseIsBounded(cfg: Config, vs: seq<Visit>, i: nat, j: nat)
    requires Chain(cfg, vs) && i <= j < |vs| && vs[i].args.mode == vs[j].args.mode && !vs[i].args.mode.Replication?
    ensures j - i < SkipPages(cfg)
  {
    if i < j {
      SkipGrows(cfg, vs, i, j);
      var k, n := j - i, SkipPages(cfg);
      if n <= k { TimesMonotone(n, k, Top(cfg)); }
    }
  }

  /** The pages still to come: a bound that every step of a chain lowers. */
  function Remaining(cfg: Config, v: Visit): nat {
    var p := SkipPages(cfg);
    match v.args.mode
    case Replication => v.pagesLeft + 2 * p
    case NavHydrate => SkipsLeft(cfg, v.args.skip) + p
    case Incremental => SkipsLeft(cfg, v.args.skip)
  }

  function SkipsLeft(cfg: Config, skip: nat): (n: nat)
    decreases SKIP_CAP - skip
  {
    if skip + Top(cfg) >= SKIP_CAP then 0 else 1 + SkipsLeft(cfg, skip + Top(cfg))
  }

  lemma {:induction false} SkipsLeftBound(cfg: Config, skip: nat, n: nat)
    requires SKIP_CAP <= skip + n * Top(cfg) && n > 0
    ensures SkipsLeft(cfg, skip) < n
    decreases n
  {
    if skip + Top(cfg) < SKIP_CAP {
      assert n * Top(cfg) == (n - 1) * Top(cfg) + Top(cfg);
      SkipsLeftBound(cfg, skip + Top(cfg), n - 1);
    }
  }

  lemma RemainingFalls(cfg: Config, v: Visit, u: Visit)
    requires Follows(cfg, v, u)
    ensures Remaining(cfg, u) < Remaining(cfg, v)
  {
    StepKinds(cfg, v, u);
    SkipsLeftBound(cfg, 0, SkipPages(cfg));
  }

  /** Against an upstream with finitely many replication pages every chain ends: it has at most one visit
      per remaining replication page, the current one, and two full skip phases. */
  lemma {:induction false} ChainsTerminate(cfg: Config, vs: seq<Visit>)
    requires Chain(cfg, vs) && vs != [] && vs[0].args.mode.Replication?
    ensures |vs| <= 1 + vs[0].pagesLeft + 2 * SkipPages(cfg)
  {
    ChainLength(cfg, vs, |vs| - 1);
  }

  lemma {:induction false} ChainLength(cfg: Config, vs: seq<Visit>, i: nat)
    requires Chain(cfg, vs) && i < |vs|
    ensures i + Remaining(cfg, vs[i]) <= Remaining(cfg, vs[0])
  {
    if i > 0 {
      ChainLength(cfg, vs, i - 1);
      RemainingFalls(cfg, vs[i - 1], vs[i]);
    }
  }

  /** Every visit got past the chain cap at the head of FetchPage. */
  ghost predicate UnderCap(cfg: Config, vs: seq<Visit>) {
    forall i :: 0 <= i < |vs| ==> vs[i].args.depth < cfg.maxChain
  }

  lemma {:induction false} DepthAt(cfg: Config, vs: seq<Visit>, i: nat)
    requires Chain(cfg, vs) && UnderCap(cfg, vs) && i < |vs|
    ensures i <= if vs[i].args.mode.Incremental? then cfg.maxChain + vs[i].args.depth else vs[i].args.depth
  {
    if i > 0 {
      DepthAt(cfg, vs, i - 1);
      StepKinds(cfg, vs[i - 1], vs[i]);
    }
  }

  /** With a chain cap, a chain ends whatever the upstream answers: it fetches at most twice the cap. */
  lemma CappedChainsTerminate(cfg: Config, vs: seq<Visit>)
    requires Chain(cfg, vs) && UnderCap(cfg, vs)
    ensures vs != [] ==> |vs| <= 2 * cfg.maxChain
  {
    if vs != [] {
      DepthAt(cfg, vs, |vs| - 1);
    }
  }
}
