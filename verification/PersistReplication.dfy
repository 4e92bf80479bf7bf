/** A whole replication: pages stored one after the other, under the fetch guard
    (internal/service/sync/bridge_worker.go, internal/service/sync/fetch_guard.go). */
module PersistReplication {
  import opened Wrappers
  import opened ListingMirror
  import opened ListingMirrorOrder
  import opened ReplicaPages
  import opened ReplicaPageOrder
  import opened PersistProtocol
  import opened PersistAccounting
  import opened PersistHydration
  import opened PersistGuard
  import opened PersistSettled

  /** Step i stores page p. */
  predicate Stores(states: seq<State>, steps: seq<Step>, i: nat, p: PageId)
    requires |states| == |steps| + 1
  {
    i < |steps| && steps[i].StoreFetched? && states[i].nextPage == p
  }

  /** Page m is stored at step at[m], and it has been announced by the time that the next one is, or by the
      last time. */
  ghost predicate InTurn(states: seq<State>, steps: seq<Step>, pages: seq<PageId>, at: seq<nat>)
    requires |states| == |steps| + 1
  {
    && |at| == |pages| + 1 && (forall m :: 0 <= m < |at| ==> at[m] < |states|)
    && forall m :: 0 <= m < |pages| ==>
         at[m] < at[m + 1] && Stores(states, steps, at[m], pages[m]) && Announced(states[at[m + 1]], pages[m])
  }

  /** The rows of the page that step i stores. */
  function StoredRows(steps: seq<Step>, i: nat): seq<Row> {
    if i < |steps| && steps[i].StoreFetched? then Flatten(steps[i].parts) else []
  }

  /** The rows of the first n pages, in order. */
  function AllRows(steps: seq<Step>, at: seq<nat>, n: nat): seq<Row>
    requires n <= |at|
  {
    if n == 0 then [] else AllRows(steps, at, n - 1) + StoredRows(steps, at[n - 1])
  }

  /** From one store to the next, only the page just stored changes listings of the given rows. */
  ghost predicate OnlyInTurn(states: seq<State>, steps: seq<Step>, pages: seq<PageId>, at: seq<nat>, all: seq<Row>)
    requires |states| == |steps| + 1 && InTurn(states, steps, pages, at)
  {
    forall m, j :: 0 <= m < |pages| && at[m] <= j < at[m + 1] && !WritesPage(states[j], steps[j], pages[m]) ==>
      SameOn(all, states[j].mirror, states[j + 1].mirror)
  }

  /** Every listing of the rows is a listing of all. */
  ghost predicate Within(rows: seq<Row>, all: seq<Row>) {
    forall i :: 0 <= i < |rows| && Writes(rows[i]) ==> !Foreign(RowKey(rows[i]), all)
  }

  lemma SameWithin(rows: seq<Row>, all: seq<Row>, a: Table, b: Table)
    requires Within(rows, all) && SameOn(all, a, b)
    ensures SameOn(rows, a, b)
  {
  }

  // ---- One page ----------------------------------------------------------------------------------

  /** A page is unknown until it is stored, and afterwards it is what was stored. */
  lemma StoredAt(states: seq<State>, steps: seq<Step>, p: PageId, i: nat, j: nat)
    requires Run(states, steps) && Stores(states, steps, i, p) && j < |states|
    ensures j <= i ==> p !in states[j].stored && PageRows(states[j], p) == []
    ensures j > i ==> p in states[j].stored && states[j].stored[p].base == states[i].mirror
    ensures j > i ==> states[j].stored[p].parts == steps[i].parts && PageRows(states[j], p) == StoredRows(steps, i)
  {
    assert Next(states[i], states[i + 1], steps[i]);
    StoresPage(states[i], states[i + 1], steps[i].w, steps[i].parts);
    if j > i {
      SnapshotStays(states, steps, p, i + 1, j);
    } else if p in states[j].stored {
      SnapshotStays(states, steps, p, j, i);
      PagesAlways(states, steps, i);
      assert false;
    }
  }

  lemma PageUndisturbed(states: seq<State>, steps: seq<Step>, pages: seq<PageId>, at: seq<nat>, all: seq<Row>, m: nat,
                        j: nat)
    requires Run(states, steps) && InTurn(states, steps, pages, at) && OnlyInTurn(states, steps, pages, at, all)
    requires m < |pages| && Within(StoredRows(steps, at[m]), all) && j < at[m + 1]
    ensures Undisturbed(states[j], states[j + 1], steps[j], pages[m])
  {
    StoredAt(states, steps, pages[m], at[m], j);
    if j > at[m] && !WritesPage(states[j], steps[j], pages[m]) {
      SameWithin(StoredRows(steps, at[m]), all, states[j].mirror, states[j + 1].mirror);
    }
  }

  /** A chunk job of page p leaves the listings alone that are none of p's. */
  lemma WriteLeavesOthers(s: State, t: State, a: Step, p: PageId, k: Key)
    requires PcsMatch(s) && Next(s, t, a) && WritesPage(s, a, p) && Foreign(k, PageRows(s, p))
    ensures Get(t.mirror, k) == Get(s.mirror, k)
  {
    var pc := PcOf(s, a.w);
    assert PcMatches(s.stored, pc);
    var snap, c := s.stored[p], pc.r.job.task.index - 1;
    ChunkIsStretch(snap.parts, c);
    PartForeign(k, pc.rows, PageRows(s, p), Offset(snap.parts, c));
    CommitsPass(s.mirror, pc.rows, pc.todo, a.sub, a.mirror, k);
  }

  lemma PartForeign(k: Key, part: seq<Row>, rows: seq<Row>, off: nat)
    requires StretchOf(part, rows, off) && Foreign(k, rows)
    ensures Foreign(k, part)
  {
  }

  lemma StepLeavesOthers(s: State, t: State, a: Step, p: PageId, all: seq<Row>, k: Key)
    requires PcsMatch(s) && Next(s, t, a) && (!WritesPage(s, a, p) ==> SameOn(all, s.mirror, t.mirror))
    requires Foreign(k, PageRows(s, p)) && !Foreign(k, all)
    ensures Get(t.mirror, k) == Get(s.mirror, k)
  {
    hide Next, PcsMatch;
    if WritesPage(s, a, p) { WriteLeavesOthers(s, t, a, p, k); }
  }

  lemma TurnStep(states: seq<State>, steps: seq<Step>, pages: seq<PageId>, at: seq<nat>, all: seq<Row>, m: nat, k: Key,
                 j: nat)
    requires FailStopRun(states, steps) && InTurn(states, steps, pages, at) && OnlyInTurn(states, steps, pages, at, all)
    requires m < |pages| && at[m] <= j < at[m + 1] && !Foreign(k, all)
    requires Foreign(k, StoredRows(steps, at[m]))
    ensures Get(states[j + 1].mirror, k) == Get(states[j].mirror, k)
  {
    StoredAt(states, steps, pages[m], at[m], j);
    HydratingAlways(states, steps, j);
    assert Next(states[j], states[j + 1], steps[j]) && PcsMatch(states[j]);
    assert !WritesPage(states[j], steps[j], pages[m]) ==> SameOn(all, states[j].mirror, states[j + 1].mirror);
    hide Next, PcsMatch, SameOn, WritesPage, Foreign;
    StepLeavesOthers(states[j], states[j + 1], steps[j], pages[m], all, k);
  }

  /** Up to the next store, a listing that is not on page m stays as it was. */
  lemma {:induction false} OtherListingStays(states: seq<State>, steps: seq<Step>, pages: seq<PageId>, at: seq<nat>,
                                             all: seq<Row>, m: nat, k: Key, j: nat)
    requires FailStopRun(states, steps) && InTurn(states, steps, pages, at) && OnlyInTurn(states, steps, pages, at, all)
    requires m < |pages| && at[m] <= j <= at[m + 1] && !Foreign(k, all)
    requires Foreign(k, StoredRows(steps, at[m]))
    ensures Get(states[j].mirror, k) == Get(states[at[m]].mirror, k)
    decreases j
  {
    hide Next, OnlyInTurn, Announced, Foreign, Get;
    if j > at[m] {
      OtherListingStays(states, steps, pages, at, all, m, k, j - 1);
      TurnStep(states, steps, pages, at, all, m, k, j - 1);
    }
  }

  /** If step i stores a page, it settles. */
  ghost predicate Settles(steps: seq<Step>, i: nat) {
    i < |steps| && steps[i].StoreFetched? ==>
      PageSettles(steps[i].parts) && FlagsAgree(Flatten(steps[i].parts))
  }

  lemma PageApplied(states: seq<State>, steps: seq<Step>, pages: seq<PageId>, at: seq<nat>, all: seq<Row>, m: nat)
    requires FailStopRun(states, steps) && InTurn(states, steps, pages, at) && OnlyInTurn(states, steps, pages, at, all)
    requires m < |pages| && Settles(steps, at[m]) && Within(StoredRows(steps, at[m]), all)
    ensures SameOn(all, states[at[m + 1]].mirror, ApplyRows(states[at[m]].mirror, StoredRows(steps, at[m])))
  {
    var p, i, rows := pages[m], at[m + 1], StoredRows(steps, at[m]);
    var base, u := states[at[m]].mirror, states[i].mirror;
    StoredAt(states, steps, p, at[m], i);
    forall j | 0 <= j < i ensures Undisturbed(states[j], states[j + 1], steps[j], p) {
      PageUndisturbed(states, steps, pages, at, all, m, j);
    }
    var b :| Announcements(states[i], b) > 0 && FinalizedPage(states[i], b) == Some(p);
    FinalizedPageIsInTheMirror(states, steps, i, b, p);
    forall n | 0 <= n < |all| && Writes(all[n])
      ensures Get(u, RowKey(all[n])) == Get(ApplyRows(base, rows), RowKey(all[n]))
    {
      var k := RowKey(all[n]);
      if Foreign(k, rows) {
        OtherListingStays(states, steps, pages, at, all, m, k, i);
        ApplyRowsAt(base, rows, k);
        RowsAtPasses(Get(base, k), rows, k);
      } else {
        var j :| 0 <= j < |rows| && Writes(rows[j]) && RowKey(rows[j]) == k;
      }
    }
  }

  // ---- All pages ---------------------------------------------------------------------------------

  lemma SameAfterRows(all: seq<Row>, a: Table, b: Table, rows: seq<Row>)
    requires SameOn(all, a, b)
    ensures SameOn(all, ApplyRows(a, rows), ApplyRows(b, rows))
  {
    forall i | 0 <= i < |all| && Writes(all[i])
      ensures Get(ApplyRows(a, rows), RowKey(all[i])) == Get(ApplyRows(b, rows), RowKey(all[i]))
    {
      ApplyRowsAt(a, rows, RowKey(all[i]));
      ApplyRowsAt(b, rows, RowKey(all[i]));
    }
  }

  /** After n pages, the listings of all are what applying the rows of those pages one by one makes of the mirror
      that the replication began with. */
  lemma {:induction false} PagesApplied(states: seq<State>, steps: seq<Step>, pages: seq<PageId>, at: seq<nat>,
                                        all: seq<Row>, n: nat)
    requires FailStopRun(states, steps) && InTurn(states, steps, pages, at) && OnlyInTurn(states, steps, pages, at, all)
    requires n <= |pages|
    requires forall m :: 0 <= m < |pages| ==> Settles(steps, at[m]) && Within(StoredRows(steps, at[m]), all)
    ensures SameOn(all, states[at[n]].mirror, ApplyRows(states[at[0]].mirror, AllRows(steps, at, n)))
  {
    assert ApplyRows(states[at[0]].mirror, []) == states[at[0]].mirror;
    hide Next, Announced, ApplyRows, OnlyInTurn, FailStopRun, Settles, Within;
    if n > 0 {
      var before, rows, start := AllRows(steps, at, n - 1), StoredRows(steps, at[n - 1]),
        states[at[0]].mirror;
      PagesApplied(states, steps, pages, at, all, n - 1);
      PageApplied(states, steps, pages, at, all, n - 1);
      SameAfterRows(all, states[at[n - 1]].mirror, ApplyRows(start, before), rows);
      ApplyRowsConcat(start, before, rows);
    }
  }

  lemma {:induction false} PageWithin(steps: seq<Step>, at: seq<nat>, m: nat, n: nat)
    requires m < n <= |at|
    ensures Within(StoredRows(steps, at[m]), AllRows(steps, at, n))
    decreases n
  {
    hide StoredRows;
    var before, last, all := AllRows(steps, at, n - 1), StoredRows(steps, at[n - 1]), AllRows(steps, at, n);
    assert all == before + last;
    if m < n - 1 {
      PageWithin(steps, at, m, n - 1);
      assert forall j :: 0 <= j < |before| ==> all[j] == before[j];
    } else {
      assert forall j :: 0 <= j < |last| ==> all[|before| + j] == last[j];
    }
  }

  /** If pages are stored in turn, each when the one before has been announced, and from one store to the next only
      the page just stored changes their listings, the mirror ends with all pages applied in order, row by row. */
  lemma StoredInTurn(states: seq<State>, steps: seq<Step>, pages: seq<PageId>, at: seq<nat>)
    requires FailStopRun(states, steps) && InTurn(states, steps, pages, at)
    requires OnlyInTurn(states, steps, pages, at, AllRows(steps, at, |pages|))
    requires forall m :: 0 <= m < |pages| ==> Settles(steps, at[m])
    ensures var all := AllRows(steps, at, |pages|);
      SameOn(all, states[at[|pages|]].mirror, ApplyRows(states[at[0]].mirror, all))
  {
    var n := |pages|;
    forall m | 0 <= m < n ensures Within(StoredRows(steps, at[m]), AllRows(steps, at, n)) {
      PageWithin(steps, at, m, n);
    }
    PagesApplied(states, steps, pages, at, AllRows(steps, at, n), n);
  }

  // ---- Under the guard ---------------------------------------------------------------------------

  /** The fetch of page m reads the guard at guard[m] and stores at at[m]. It finds none of the pages before
      active, and it has stored before the next fetch reads the guard. guard has one moment more: then, too, no page
      is active. */
  ghost predicate Guarded(states: seq<State>, steps: seq<Step>, pages: seq<PageId>, at: seq<nat>, guard: seq<nat>)
    requires |states| == |steps| + 1
  {
    && |at| == |pages| && |guard| == |pages| + 1 && (forall m :: 0 <= m < |guard| ==> guard[m] < |states|)
    && (forall m :: 0 <= m < |pages| ==> guard[m] <= at[m] < guard[m + 1] && Stores(states, steps, at[m], pages[m]))
    && (forall m, k :: 0 <= k < m < |guard| ==> !Active(states[guard[m]], pages[k]))
  }

  /** The listings of the rows change only by the chunk jobs of the pages. */
  ghost predicate OnlyPagesWrite(states: seq<State>, steps: seq<Step>, pages: seq<PageId>, all: seq<Row>, n: nat)
    requires |states| == |steps| + 1
  {
    forall j :: 0 <= j < n <= |steps| ==>
      || (exists k :: 0 <= k < |pages| && WritesPage(states[j], steps[j], pages[k]))
      || SameOn(all, states[j].mirror, states[j + 1].mirror)
  }

  lemma {:induction false} StoresInOrder(states: seq<State>, steps: seq<Step>, pages: seq<PageId>, at: seq<nat>,
                                         guard: seq<nat>, k: nat, m: nat)
    requires |states| == |steps| + 1 && Guarded(states, steps, pages, at, guard) && k < m <= |pages|
    ensures at[k] < guard[m]
  {
    if k < m - 1 { StoresInOrder(states, steps, pages, at, guard, k, m - 1); }
  }

  /** The guard lets a fetch through only when the pages before it have been announced. */
  lemma GuardMeansAnnounced(states: seq<State>, steps: seq<Step>, pages: seq<PageId>, at: seq<nat>, guard: seq<nat>,
                            k: nat, m: nat, j: nat)
    requires Run(states, steps) && Guarded(states, steps, pages, at, guard) && k < m <= |pages|
    requires guard[m] <= j < |states|
    ensures Announced(states[j], pages[k])
  {
    StoresInOrder(states, steps, pages, at, guard, k, m);
    StoredAt(states, steps, pages[k], at[k], guard[m]);
    ActiveUntilAnnounced(states, steps, guard[m], pages[k]);
    AnnouncedForGood(states, steps, pages[k], guard[m], j);
  }

  lemma GuardMeansInTurn(states: seq<State>, steps: seq<Step>, pages: seq<PageId>, at: seq<nat>, guard: seq<nat>)
    requires Run(states, steps) && Guarded(states, steps, pages, at, guard)
    ensures InTurn(states, steps, pages, at + [guard[|pages|]])
  {
    var all := at + [guard[|pages|]];
    forall m | 0 <= m < |pages|
      ensures all[m] < all[m + 1] && Stores(states, steps, all[m], pages[m]) && Announced(states[all[m + 1]], pages[m])
    {
      assert all[m] == at[m] && guard[m + 1] <= all[m + 1];
      GuardMeansAnnounced(states, steps, pages, at, guard, m, m + 1, all[m + 1]);
    }
  }

  lemma WriterIsOfStored(s: State, a: Step, p: PageId)
    requires PcsMatch(s)
    ensures WritesPage(s, a, p) ==> p in s.stored
  {
    if WritesPage(s, a, p) { assert PcMatches(s.stored, PcOf(s, a.w)); }
  }

  /** A page is written only after it has been stored. */
  lemma WrittenIsStored(states: seq<State>, steps: seq<Step>, p: PageId, i: nat, j: nat)
    requires FailStopRun(states, steps) && Stores(states, steps, i, p) && j <= i
    ensures !WritesPage(states[j], steps[j], p)
  {
    StoredAt(states, steps, p, i, j);
    HydratingAlways(states, steps, j);
    WriterIsOfStored(states[j], steps[j], p);
  }

  /** Between two stores no other page of the replication is written. */
  lemma OthersAreQuiet(states: seq<State>, steps: seq<Step>, pages: seq<PageId>, at: seq<nat>, guard: seq<nat>,
                       m: nat, k: nat, j: nat)
    requires FailStopRun(states, steps) && Guarded(states, steps, pages, at, guard)
    requires m < |pages| && k < |pages| && k != m && at[m] <= j < |steps|
    requires j < if m + 1 < |pages| then at[m + 1] else guard[m + 1]
    ensures !WritesPage(states[j], steps[j], pages[k])
  {
    if k < m {
      GuardMeansAnnounced(states, steps, pages, at, guard, k, m, j);
      AnnouncedIsQuiet(states, steps, j, pages[k], steps[j]);
    } else {
      if m + 1 < k { StoresInOrder(states, steps, pages, at, guard, m + 1, k); }
      WrittenIsStored(states, steps, pages[k], at[k], j);
    }
  }

  lemma NobodyWrites(states: seq<State>, steps: seq<Step>, pages: seq<PageId>, at: seq<nat>, guard: seq<nat>,
                     all: seq<Row>, m: nat, j: nat)
    requires FailStopRun(states, steps) && Guarded(states, steps, pages, at, guard)
    requires OnlyPagesWrite(states, steps, pages, all, guard[|pages|])
    requires m < |pages| && at[m] <= j < (if m + 1 < |pages| then at[m + 1] else guard[m + 1])
    requires !WritesPage(states[j], steps[j], pages[m])
    ensures SameOn(all, states[j].mirror, states[j + 1].mirror)
  {
    if m + 1 < |pages| { StoresInOrder(states, steps, pages, at, guard, m + 1, |pages|); }
    assert j < guard[|pages|] <= |steps|;
    hide FailStopRun, WritesPage, SameOn;
    forall k | 0 <= k < |pages| ensures !WritesPage(states[j], steps[j], pages[k]) {
      if k != m { OthersAreQuiet(states, steps, pages, at, guard, m, k, j); }
    }
  }

  lemma OnlyInTurnWrites(states: seq<State>, steps: seq<Step>, pages: seq<PageId>, at: seq<nat>, guard: seq<nat>,
                         all: seq<Row>)
    requires FailStopRun(states, steps) && Guarded(states, steps, pages, at, guard)
    requires OnlyPagesWrite(states, steps, pages, all, guard[|pages|])
    requires InTurn(states, steps, pages, at + [guard[|pages|]])
    ensures OnlyInTurn(states, steps, pages, at + [guard[|pages|]], all)
  {
    var ends := at + [guard[|pages|]];
    forall m, j | 0 <= m < |pages| && ends[m] <= j < ends[m + 1] && !WritesPage(states[j], steps[j], pages[m])
      ensures SameOn(all, states[j].mirror, states[j + 1].mirror)
    {
      NobodyWrites(states, steps, pages, at, guard, all, m, j);
    }
  }

  lemma {:induction false} SameAllRows(steps: seq<Step>, at: seq<nat>, ends: seq<nat>, n: nat)
    requires n <= |at| && at <= ends
    ensures AllRows(steps, ends, n) == AllRows(steps, at, n)
  {
    hide StoredRows;
    if n > 0 { SameAllRows(steps, at, ends, n - 1); }
  }

  /** The whole replication. Its fetches read the guard one after the other, each finding no page of it active, and
      nobody else writes its listings. Then at any moment when no page is active the mirror holds all pages applied
      in order, row by row, whatever was retried or interleaved. A listing may be on any number of pages. */
  lemma ReplicationIsAppliedInOrder(states: seq<State>, steps: seq<Step>, pages: seq<PageId>, at: seq<nat>,
                                    guard: seq<nat>)
    requires FailStopRun(states, steps) && pages != [] && Guarded(states, steps, pages, at, guard)
    requires OnlyPagesWrite(states, steps, pages, AllRows(steps, at, |pages|), guard[|pages|])
    requires forall m :: 0 <= m < |pages| ==> Settles(steps, at[m])
    ensures var all := AllRows(steps, at, |pages|);
      SameOn(all, states[guard[|pages|]].mirror, ApplyRows(states[at[0]].mirror, all))
  {
    var n, ends := |pages|, at + [guard[|pages|]];
    GuardMeansInTurn(states, steps, pages, at, guard);
    OnlyInTurnWrites(states, steps, pages, at, guard, AllRows(steps, at, n));
    SameAllRows(steps, at, ends, n);
    StoredInTurn(states, steps, pages, ends);
  }
}
