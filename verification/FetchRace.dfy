/** The replication guard at the level of statements (internal/service/sync/fetch_guard.go,
    internal/service/sync/bridge_worker.go, internal/service/sync/replica_page.go).

    A fetch reads the page table, asks the upstream, and only then inserts its page. Any number of workers
    do so at once, and pages are completed and deleted meanwhile. The number of active replication pages of
    a dataset is bounded by the number of its fetches that overlap, and every such number is reached. */
module FetchRace {
  import opened Shared
  import opened SyncCursors
  import opened FetchChain
  import opened ReplicationSync

  type WorkerId = nat

  datatype Target = Target(provider: Provider, dataset: string)

  /** Between the guard read and the insert a worker is committed to a fetch. */
  datatype Pc = Idle | Committed(target: Target, mode: Mode)

  datatype State = State(pages: map<PageId, ReplicaPage>, nextPage: PageId, workers: map<WorkerId, Pc>)
  {
    ghost predicate Valid() { forall p :: p in pages ==> p < nextPage }
  }

  datatype Step =
    | ReadGuard(w: WorkerId, target: Target, mode: Mode)
    | InsertPage(w: WorkerId)
    | GiveUp(w: WorkerId)
    | CompletePage(page: PageId)
    | DeletePage(page: PageId)

  function PcOf(s: State, w: WorkerId): Pc { if w in s.workers then s.workers[w] else Idle }

  function Go(s: State, w: WorkerId, p: Pc): State { s.(workers := s.workers[w := p]) }

  function NewPage(p: Pc): ReplicaPage
    requires p.Committed?
  {
    ReplicaPage(p.target.provider, p.target.dataset, p.mode, true)
  }

  /** A worker gives up on an empty or failed answer, or by crashing. */
  ghost predicate Next(s: State, t: State, a: Step) {
    match a
    case ReadGuard(w, target, mode) =>
      && PcOf(s, w).Idle? && !SkipFetch(s.pages, target.provider, target.dataset, mode)
      && t == Go(s, w, Committed(target, mode))
    case InsertPage(w) =>
      PcOf(s, w).Committed? &&
      t == Go(s, w, Idle).(pages := s.pages[s.nextPage := NewPage(PcOf(s, w))], nextPage := s.nextPage + 1)
    case GiveUp(w) => PcOf(s, w).Committed? && t == Go(s, w, Idle)
    case CompletePage(p) => p in s.pages && t == s.(pages := s.pages[p := s.pages[p].(active := false)])
    case DeletePage(p) => t == s.(pages := s.pages - {p})
  }

  ghost predicate RunFrom(s: State, states: seq<State>, steps: seq<Step>) {
    && |states| == |steps| + 1 && states[0] == s
    && forall i :: 0 <= i < |steps| ==> Next(states[i], states[i + 1], steps[i])
  }

  const EMPTY := State(map[], 0, map[])

  // ---- Counting ----------------------------------------------------------------------------------

  /** The replication fetches of a target that have read the guard and not yet stored their page. */
  function Fetching(s: State, target: Target): set<WorkerId> {
    set w | w in s.workers && s.workers[w] == Committed(target, Replication)
  }

  function Active(s: State, target: Target): set<PageId> {
    set p | p in s.pages && ReplicationPage(s.pages, p, target.provider, target.dataset)
  }

  lemma CountSubset(a: set<nat>, b: set<nat>)
    requires a <= b
    ensures |a| <= |b|
  {
    assert b == a + (b - a);
  }

  lemma ActiveMeansFound(s: State, target: Target)
    ensures Active(s, target) != {} ==> HasActivePage(s.pages, target.provider, target.dataset)
  {
    if p :| p in Active(s, target) {
      assert s.pages[p].provider == target.provider && s.pages[p].dataset == target.dataset && s.pages[p].active;
    }
  }

  lemma GuardCounts(s: State, t: State, w: WorkerId, mode: Mode, at: Target, target: Target)
    requires Next(s, t, ReadGuard(w, at, mode))
    ensures Active(t, target) == Active(s, target)
    ensures (at == target && mode.Replication? && Active(s, target) == {}) || Fetching(t, target) == Fetching(s, target)
  {
    ActiveMeansFound(s, target);
    if !(at == target && mode.Replication?) {
      assert Fetching(t, target) == Fetching(s, target);
    }
  }

  lemma InsertOwn(s: State, t: State, w: WorkerId, target: Target)
    requires s.Valid() && Next(s, t, InsertPage(w)) && PcOf(s, w) == Committed(target, Replication)
    ensures Active(t, target) == Active(s, target) + {s.nextPage} && s.nextPage !in Active(s, target)
    ensures Fetching(t, target) == Fetching(s, target) - {w} && w in Fetching(s, target)
  {
  }

  lemma InsertOther(s: State, t: State, w: WorkerId, target: Target)
    requires s.Valid() && Next(s, t, InsertPage(w)) && PcOf(s, w) != Committed(target, Replication)
    ensures Active(t, target) == Active(s, target) && Fetching(t, target) == Fetching(s, target)
  {
    assert forall p :: p in Active(t, target) <==> p in Active(s, target);
  }

  /** A fetch that stores its page becomes one active page. */
  lemma InsertCounts(s: State, t: State, w: WorkerId, target: Target)
    requires s.Valid() && Next(s, t, InsertPage(w))
    ensures |Active(t, target)| + |Fetching(t, target)| == |Active(s, target)| + |Fetching(s, target)|
    ensures PcOf(s, w) == Committed(target, Replication) ==> |Fetching(t, target)| == |Fetching(s, target)| - 1
  {
    if PcOf(s, w) == Committed(target, Replication) {
      InsertOwn(s, t, w, target);
    } else {
      InsertOther(s, t, w, target);
    }
  }

  lemma OtherCounts(s: State, t: State, a: Step, target: Target)
    requires Next(s, t, a) && (a.GiveUp? || a.CompletePage? || a.DeletePage?)
    ensures Active(t, target) <= Active(s, target) && Fetching(t, target) <= Fetching(s, target)
  {
  }

  lemma ValidKept(s: State, t: State, a: Step)
    requires s.Valid() && Next(s, t, a)
    ensures t.Valid()
  {
  }

  /** A step keeps active pages and fetches together within m, if it keeps the fetches within m. */
  lemma BoundKept(s: State, t: State, a: Step, target: Target, m: nat)
    requires s.Valid() && Next(s, t, a)
    requires |Active(s, target)| + |Fetching(s, target)| <= m && |Fetching(t, target)| <= m
    ensures |Active(t, target)| + |Fetching(t, target)| <= m
  {
    match a
    case ReadGuard(w, at, mode) => GuardCounts(s, t, w, mode, at, target);
    case InsertPage(w) => InsertCounts(s, t, w, target);
    case _ =>
      OtherCounts(s, t, a, target);
      CountSubset(Active(t, target), Active(s, target));
      CountSubset(Fetching(t, target), Fetching(s, target));
  }

  /** Active replication pages never exceed the fetches that overlap: if at most m are between guard and
      insert at any moment of a run, pages and fetches together stay within m. */
  lemma {:induction false} PagesWithinOverlap(states: seq<State>, steps: seq<Step>, target: Target, m: nat, n: nat)
    requires RunFrom(EMPTY, states, steps) && n < |states|
    requires forall i :: 0 <= i <= n ==> |Fetching(states[i], target)| <= m
    ensures states[n].Valid() && |Active(states[n], target)| + |Fetching(states[n], target)| <= m
  {
    if n > 0 {
      PagesWithinOverlap(states, steps, target, m, n - 1);
      ValidKept(states[n - 1], states[n], steps[n - 1]);
      BoundKept(states[n - 1], states[n], steps[n - 1], target, m);
    } else {
      assert Active(EMPTY, target) == {} && Fetching(EMPTY, target) == {};
    }
  }

  /** No two replication fetches of one target overlap. */
  ghost predicate Exclusive(s: State) {
    forall v, w :: PcOf(s, v).Committed? && PcOf(s, v).mode.Replication? && PcOf(s, v) == PcOf(s, w) ==> v == w
  }

  /** So while no two replication fetches of one provider and dataset overlap, at most one page is active. */
  lemma ExclusiveFetchesStoreOne(states: seq<State>, steps: seq<Step>, n: nat)
    requires RunFrom(EMPTY, states, steps) && n < |states|
    requires forall i :: 0 <= i <= n ==> Exclusive(states[i])
    ensures OnePage(states[n].pages)
  {
    forall p, q, provider, dataset |
      ReplicationPage(states[n].pages, p, provider, dataset) && ReplicationPage(states[n].pages, q, provider, dataset)
      ensures p == q
    {
      var target := Target(provider, dataset);
      forall i | 0 <= i <= n ensures |Fetching(states[i], target)| <= 1 { AtMostOneFetch(states[i], target); }
      PagesWithinOverlap(states, steps, target, 1, n);
      CountSubset({p, q}, Active(states[n], target));
    }
  }

  lemma AtMostOneFetch(s: State, target: Target)
    requires Exclusive(s)
    ensures |Fetching(s, target)| <= 1
  {
    if w :| w in Fetching(s, target) {
      assert forall v :: v in Fetching(s, target) ==> PcOf(s, v) == PcOf(s, w);
      assert Fetching(s, target) == {w};
    }
  }

  // ---- The bound is reached ----------------------------------------------------------------------

  /** From any state the fetches under way can all store their pages. */
  lemma {:induction false} AllStore(s: State, target: Target) returns (states: seq<State>, steps: seq<Step>)
    requires s.Valid()
    ensures RunFrom(s, states, steps) && Fetching(states[|steps|], target) == {}
    ensures |Active(states[|steps|], target)| == |Active(s, target)| + |Fetching(s, target)|
    decreases |Fetching(s, target)|
  {
    if w :| w in Fetching(s, target) {
      var t := Go(s, w, Idle).(pages := s.pages[s.nextPage := NewPage(PcOf(s, w))], nextPage := s.nextPage + 1);
      assert Next(s, t, InsertPage(w));
      ValidKept(s, t, InsertPage(w));
      InsertCounts(s, t, w, target);
      states, steps := AllStore(t, target);
      states, steps := [s] + states, [InsertPage(w)] + steps;
    } else {
      states, steps := [s], [];
    }
  }

  lemma RunsJoin(states: seq<State>, steps: seq<Step>, more: seq<State>, next: seq<Step>)
    requires RunFrom(EMPTY, states, steps) && RunFrom(states[|steps|], more, next)
    ensures RunFrom(EMPTY, states + more[1..], steps + next)
  {
    var all, both := states + more[1..], steps + next;
    forall i | 0 <= i < |both| ensures Next(all[i], all[i + 1], both[i]) {
      if i >= |steps| {
        var k := i - |steps|;
        assert all[i] == more[k] && all[i + 1] == more[k + 1] && both[i] == next[k];
      }
    }
  }

  lemma {:induction false} ReachableIsValid(states: seq<State>, steps: seq<Step>, n: nat)
    requires RunFrom(EMPTY, states, steps) && n < |states|
    ensures states[n].Valid()
  {
    if n > 0 {
      ReachableIsValid(states, steps, n - 1);
      ValidKept(states[n - 1], states[n], steps[n - 1]);
    }
  }

  /** Every run goes on to one in which the active pages are those it had and one for each fetch under way. */
  lemma OverlapIsReached(states: seq<State>, steps: seq<Step>, target: Target)
    returns (all: seq<State>, both: seq<Step>)
    requires RunFrom(EMPTY, states, steps)
    ensures RunFrom(EMPTY, all, both) && states <= all && steps <= both
    ensures |Active(all[|both|], target)| == |Active(states[|steps|], target)| + |Fetching(states[|steps|], target)|
  {
    ReachableIsValid(states, steps, |steps|);
    var more, next := AllStore(states[|steps|], target);
    RunsJoin(states, steps, more, next);
    all, both := states + more[1..], steps + next;
    assert all[|both|] == more[|next|];
  }

  /** Two overlapping fetches of one target therefore lead to two active pages. */
  lemma OverlappingFetchesStoreTwice(states: seq<State>, steps: seq<Step>, target: Target, v: WorkerId, w: WorkerId)
    returns (all: seq<State>, both: seq<Step>)
    requires RunFrom(EMPTY, states, steps) && v != w
    requires v in Fetching(states[|steps|], target) && w in Fetching(states[|steps|], target)
    ensures RunFrom(EMPTY, all, both) && states <= all && !OnePage(all[|both|].pages)
  {
    all, both := OverlapIsReached(states, steps, target);
    CountSubset({v, w}, Fetching(states[|steps|], target));
    var active := Active(all[|both|], target);
    var p :| p in active;
    assert |active - {p}| >= 1;
    var q :| q in active - {p};
    assert ReplicationPage(all[|both|].pages, p, target.provider, target.dataset);
    assert ReplicationPage(all[|both|].pages, q, target.provider, target.dataset);
  }

  lemma {:induction false} ManyFetches(target: Target, m: nat) returns (states: seq<State>, steps: seq<Step>)
    ensures RunFrom(EMPTY, states, steps) && states[|steps|].pages == map[]
    ensures |Fetching(states[|steps|], target)| == m && forall w :: w in states[|steps|].workers ==> w < m
  {
    if m == 0 {
      states, steps := [EMPTY], [];
    } else {
      states, steps := ManyFetches(target, m - 1);
      var s, w := states[|steps|], m - 1;
      var t := Go(s, w, Committed(target, Replication));
      assert Next(s, t, ReadGuard(w, target, Replication));
      assert Fetching(t, target) == Fetching(s, target) + {w};
      states, steps := states + [t], steps + [ReadGuard(w, target, Replication)];
    }
  }

  /** Any number of fetches can overlap, so without a bound on them the active pages have none. */
  lemma ManyPages(target: Target, m: nat) returns (states: seq<State>, steps: seq<Step>)
    ensures RunFrom(EMPTY, states, steps) && |Active(states[|steps|], target)| == m
  {
    var first, some := ManyFetches(target, m);
    assert Active(first[|some|], target) == {};
    states, steps := OverlapIsReached(first, some, target);
  }

  // ---- The handlers are runs of these statements ---------------------------------------------------

  /** When the whole fetch handler stores a page it is a guard read and an insert with nothing in between. */
  lemma FetchIsGuardThenInsert(t: Tables, cfg: Config, args: FetchArgs, r: PageResult, now: Time, s: State, w: WorkerId)
    returns (mid: State, last: State)
    requires s.pages == t.pages && s.nextPage == t.nextPage && PcOf(s, w).Idle? && t.Valid()
    requires Fetched(t, cfg, args, r, now).pages != t.pages
    ensures Next(s, mid, ReadGuard(w, Target(cfg.provider, args.dataset), args.mode)) && Next(mid, last, InsertPage(w))
    ensures last.pages == Fetched(t, cfg, args, r, now).pages && last.nextPage == Fetched(t, cfg, args, r, now).nextPage
  {
    FetchStoresGuarded(t, cfg, args, r, now);
    var target := Target(cfg.provider, args.dataset);
    mid := Go(s, w, Committed(target, args.mode));
    last := Go(mid, w, Idle).(pages := mid.pages[mid.nextPage := NewPage(PcOf(mid, w))], nextPage := mid.nextPage + 1);
    assert Next(s, mid, ReadGuard(w, target, args.mode));
    assert Next(mid, last, InsertPage(w));
  }

  /** A finalize handler changes the pages as one delete. */
  lemma FinalizeIsDelete(t: Tables, provider: Provider, args: FinalizeArgs, now: Time, s: State)
    requires s.pages == t.pages && args.page.Some?
    ensures Next(s, s.(pages := Finalized(t, provider, args, now).pages), DeletePage(args.page.value))
  {
  }
}
