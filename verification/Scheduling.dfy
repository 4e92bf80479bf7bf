/** Which queue a worker serves next (internal/queue/worker.go, internal/queue/queue.go ReserveFair,
    internal/queue/worker_queues.go): round robin over the queues of a pool, and round robin over the
    fetch, persist and other pools.

    The main result is that nobody starves: a queue that always has work is served within
    (number of pools) * (queues in its pool) reserves, whatever the other queues hold. */
module Scheduling {
  import opened Wrappers

  const FETCH_SUFFIX := "-sync-fetch"
  const PERSIST_SUFFIX := "-sync-persist"

  /** perPool holds the fetch, persist and other cursors. */
  datatype Cursors = Cursors(queue: nat, perPool: seq<nat>, pool: nat)

  datatype Choice = Choice(served: Option<string>, cursors: Cursors)

  // ---- Partition -------------------------------------------------------------------------------

  predicate HasSuffix(s: string, suffix: string) {
    |suffix| <= |s| && s[|s| - |suffix|..] == suffix
  }

  function PoolOf(queue: string): nat {
    if HasSuffix(queue, FETCH_SUFFIX) then 0 else if HasSuffix(queue, PERSIST_SUFFIX) then 1 else 2
  }

  function Members(queues: seq<string>, pool: nat): (r: seq<string>)
    ensures forall q :: q in r <==> q in queues && PoolOf(q) == pool
  {
    if queues == [] then [] else
      var n := |queues| - 1;
      assert queues == queues[..n] + [queues[n]];
      Members(queues[..n], pool) + (if PoolOf(queues[n]) == pool then [queues[n]] else [])
  }

  method PartitionWorkerQueues(queues: seq<string>)
    returns (fetch: seq<string>, persist: seq<string>, other: seq<string>)
    ensures fetch == Members(queues, 0) && persist == Members(queues, 1) && other == Members(queues, 2)
  {
    fetch, persist, other := [], [], [];
    for i := 0 to |queues|
      invariant fetch == Members(queues[..i], 0) && persist == Members(queues[..i], 1)
      invariant other == Members(queues[..i], 2)
    {
      assert queues[..i + 1][..i] == queues[..i];
      var q := queues[i];
      match PoolOf(q)
      case 0 => fetch := fetch + [q];
      case 1 => persist := persist + [q];
      case _ => other := other + [q];
    }
    assert queues[..|queues|] == queues;
  }

  function PoolsOf(fetchQ: seq<string>, persistQ: seq<string>, otherQ: seq<string>): (pools: seq<seq<string>>)
    ensures 2 <= |pools| <= 3
  {
    [fetchQ, persistQ] + (if |otherQ| > 0 then [otherQ] else [])
  }

  // ---- Round robin -----------------------------------------------------------------------------

  /** Cursors run round. */
  function Wrapped(x: nat, n: nat): (r: nat)
    requires n > 0
    ensures r < n
  {
    x % n
  }

  ghost function FairPickFrom(queues: seq<string>, start: nat, work: iset<string>, i: nat): (r: Option<nat>)
    requires queues != [] && i <= |queues|
    ensures r.Some? ==> r.value < |queues| && queues[r.value] in work
    decreases |queues| - i
  {
    if i == |queues| then None
    else if queues[Wrapped(start + i, |queues|)] in work then Some(Wrapped(start + i, |queues|))
    else FairPickFrom(queues, start, work, i + 1)
  }

  ghost function FairPick(queues: seq<string>, start: nat, work: iset<string>): (r: Option<nat>)
    ensures r.Some? ==> r.value < |queues| && queues[r.value] in work
  {
    if queues == [] then None else FairPickFrom(queues, start, work, 0)
  }

  ghost function PoolPickFrom(pools: seq<seq<string>>, c: Cursors, work: iset<string>, i: nat): (r: Option<nat>)
    requires pools != [] && |pools| <= |c.perPool| && i <= |pools|
    ensures r.Some? ==> r.value < |pools| && FairPick(pools[r.value], c.perPool[r.value], work).Some?
    decreases |pools| - i
  {
    if i == |pools| then None else
      var idx := Wrapped(c.pool + i, |pools|);
      if FairPick(pools[idx], c.perPool[idx], work).Some? then Some(idx) else PoolPickFrom(pools, c, work, i + 1)
  }

  ghost function PoolPick(pools: seq<seq<string>>, c: Cursors, work: iset<string>): (r: Option<nat>)
    requires pools != [] && |pools| <= |c.perPool|
    ensures r.Some? ==> r.value < |pools| && FairPick(pools[r.value], c.perPool[r.value], work).Some?
  {
    PoolPickFrom(pools, c, work, 0)
  }

  /** One turn of the pool loop. */
  lemma PoolTurn(pools: seq<seq<string>>, c: Cursors, work: iset<string>, i: nat, idx: nat)
    requires 0 < |pools| <= |c.perPool| && i < |pools| && idx == Wrapped(c.pool + i, |pools|)
    ensures PoolPickFrom(pools, c, work, i) ==
      if FairPick(pools[idx], c.perPool[idx], work).Some? then Some(idx) else PoolPickFrom(pools, c, work, i + 1)
  {
  }

  ghost function ChooseFair(queues: seq<string>, c: Cursors, work: iset<string>): Choice {
    var pick := FairPick(queues, c.queue, work);
    if pick.Some? then Choice(Some(queues[pick.value]), c.(queue := Wrapped(pick.value + 1, |queues|)))
    else Choice(None, if queues == [] then c.(queue := 0) else c)
  }

  ghost function ChooseWeighted(pools: seq<seq<string>>, c: Cursors, work: iset<string>): Choice
    requires pools != [] && |pools| <= |c.perPool|
  {
    var pool := PoolPick(pools, c, work);
    if pool.None? then Choice(None, c) else
      var idx := pool.value;
      var pick := FairPick(pools[idx], c.perPool[idx], work).value;
      Choice(Some(pools[idx][pick]),
             c.(perPool := c.perPool[idx := Wrapped(pick + 1, |pools[idx]|)], pool := Wrapped(idx + 1, |pools|)))
  }

  /** reserveNext. */
  ghost function Choose(queues: seq<string>, c: Cursors, work: iset<string>): Choice
    requires |c.perPool| == 3
  {
    var fetchQ, persistQ, otherQ := Members(queues, 0), Members(queues, 1), Members(queues, 2);
    if |queues| <= 1 then Choice(if queues != [] && queues[0] in work then Some(queues[0]) else None, c)
    else if fetchQ != [] && persistQ != [] then ChooseWeighted(PoolsOf(fetchQ, persistQ, otherQ), c, work)
    else ChooseFair(queues, c, work)
  }

  // ---- Cyclic distance -------------------------------------------------------------------------

  /** Steps forward from a to j on a cycle of length n. */
  function Distance(n: nat, a: nat, j: nat): (d: nat)
    requires a < n && j < n
    ensures d < n
  {
    if a <= j then j - a else j + n - a
  }

  lemma WrapOnce(n: nat, a: nat, i: nat)
    requires a < n && i <= n
    ensures Wrapped(a + i, n) == if a + i < n then a + i else a + i - n
  {
    if a + i >= n {
      assert (a + i - n) + n * 1 == a + i && 0 <= a + i - n <= n - 1 + 1;
      ModOffset(a + i - n, n);
    }
  }

  lemma ModOffset(x: nat, n: nat)
    requires 0 < n && x <= n
    ensures (x + n) % n == if x < n then x else 0
  {
    if x == n {
      assert (x + n) == 2 * n;
    }
  }

  /** The queue picked lies no further ahead than any queue with work; after serving another one the
      distance to it has fallen. */
  lemma {:induction false} PickIsAhead(queues: seq<string>, start: nat, work: iset<string>, j: nat, i: nat)
    requires start < |queues| && j < |queues| && queues[j] in work && i <= Distance(|queues|, start, j)
    ensures var n := |queues|;
      var pick := FairPickFrom(queues, start, work, i);
      && pick.Some?
      && Distance(n, start, pick.value) <= Distance(n, start, j)
      && (pick.value != j ==> Distance(n, Wrapped(pick.value + 1, n), j) < Distance(n, start, j))
    decreases |queues| - i
  {
    hide Wrapped;
    var n := |queues|;
    WrapOnce(n, start, i);
    var idx := Wrapped(start + i, n);
    if queues[idx] in work {
      WrapOnce(n, idx, 1);
    } else {
      PickIsAhead(queues, start, work, j, i + 1);
    }
  }

  lemma {:induction false} PoolPickIsAhead(pools: seq<seq<string>>, c: Cursors, work: iset<string>, p: nat, i: nat)
    requires |pools| <= |c.perPool| && c.pool < |pools| && p < |pools|
    requires FairPick(pools[p], c.perPool[p], work).Some? && i <= Distance(|pools|, c.pool, p)
    ensures var n := |pools|;
      var pick := PoolPickFrom(pools, c, work, i);
      && pick.Some?
      && (pick.value != p ==> Distance(n, Wrapped(pick.value + 1, n), p) < Distance(n, c.pool, p))
    decreases |pools| - i
  {
    hide Wrapped, FairPick;
    var n := |pools|;
    WrapOnce(n, c.pool, i);
    var idx := Wrapped(c.pool + i, n);
    if FairPick(pools[idx], c.perPool[idx], work).Some? {
      WrapOnce(n, idx, 1);
    } else {
      PoolPickIsAhead(pools, c, work, p, i + 1);
    }
  }

  // ---- No starvation ---------------------------------------------------------------------------

  /** Every cursor points into its pool. */
  ghost predicate InRange(pools: seq<seq<string>>, c: Cursors) {
    && 0 < |pools| <= |c.perPool| && c.pool < |pools|
    && forall p :: 0 <= p < |pools| ==> c.perPool[p] < |pools[p]|
  }

  /** Rounds of the pools still needed to reach queue j of pool p, and the place in the current round. */
  ghost function Waiting(pools: seq<seq<string>>, c: Cursors, p: nat, j: nat): (m: nat)
    requires InRange(pools, c) && p < |pools| && j < |pools[p]|
  {
    Distance(|pools[p]|, c.perPool[p], j) * |pools| + Distance(|pools|, c.pool, p)
  }

  lemma WaitingBound(pools: seq<seq<string>>, c: Cursors, p: nat, j: nat)
    requires InRange(pools, c) && p < |pools| && j < |pools[p]|
    ensures Waiting(pools, c, p, j) < |pools| * |pools[p]|
  {
    var d, n, m := Distance(|pools[p]|, c.perPool[p], j), |pools|, |pools[p]|;
    Lexicographic(n, d, Distance(n, c.pool, p), m, 0);
    assert m * n == n * m;
  }

  lemma Lexicographic(n: nat, d: nat, r: nat, d': nat, r': nat)
    requires d < d' && r < n
    ensures d * n + r < d' * n + r'
  {
    assert d' * n == d * n + (d' - d) * n;
    assert (d' - d) * n >= n by { Multiple(d' - d, n); }
  }

  lemma Multiple(k: nat, n: nat)
    requires k >= 1
    ensures k * n >= n
  {
    assert k * n == (k - 1) * n + n;
  }

  /** One reserve either serves the queue or brings it strictly closer. */
  lemma WeightedStep(pools: seq<seq<string>>, c: Cursors, work: iset<string>, p: nat, j: nat)
    requires InRange(pools, c) && p < |pools| && j < |pools[p]| && pools[p][j] in work
    ensures var choice := ChooseWeighted(pools, c, work);
      && choice.served.Some? && choice.served.value in work
      && InRange(pools, choice.cursors) && |choice.cursors.perPool| == |c.perPool|
      && (choice.served != Some(pools[p][j]) ==> Waiting(pools, choice.cursors, p, j) < Waiting(pools, c, p, j))
  {
    hide Wrapped, FairPickFrom, PoolPickFrom;
    PickIsAhead(pools[p], c.perPool[p], work, j, 0);
    PoolPickIsAhead(pools, c, work, p, 0);
    var choice, n := ChooseWeighted(pools, c, work), |pools|;
    var idx := PoolPick(pools, c, work).value;
    var pick := FairPick(pools[idx], c.perPool[idx], work).value;
    if idx == p && pick != j {
      Lexicographic(n, Distance(|pools[p]|, Wrapped(pick + 1, |pools[p]|), j), Distance(n, choice.cursors.pool, p),
                    Distance(|pools[p]|, c.perPool[p], j), Distance(n, c.pool, p));
    }
  }

  /** The choices made while the sets of queues with work are works[0], works[1], ... */
  ghost function Run(queues: seq<string>, c: Cursors, works: seq<iset<string>>): (served: seq<Option<string>>)
    requires |c.perPool| == 3
    ensures |served| == |works|
    decreases |works|
  {
    if works == [] then [] else
      var choice := Choose(queues, c, works[0]);
      [choice.served] + Run(queues, choice.cursors, works[1..])
  }

  /** The cursors a worker can have: they start at 0 and every reserve keeps them in range. */
  ghost predicate Reachable(queues: seq<string>, c: Cursors) {
    && |c.perPool| == 3
    && (|queues| > 1 ==>
         if Members(queues, 0) != [] && Members(queues, 1) != []
         then InRange(PoolsOf(Members(queues, 0), Members(queues, 1), Members(queues, 2)), c)
         else c.queue < |queues|)
  }

  lemma FreshWorkerReachable(queues: seq<string>)
    ensures Reachable(queues, Cursors(0, [0, 0, 0], 0))
  {
  }

  lemma ChooseKeepsReachable(queues: seq<string>, c: Cursors, work: iset<string>)
    requires Reachable(queues, c)
    ensures Reachable(queues, Choose(queues, c, work).cursors)
  {
    hide Wrapped, PoolPick, FairPick, Members;
  }

  /** The number of reserves within which queue q is served. */
  function Patience(queues: seq<string>, q: string): int {
    var fetchQ, persistQ, otherQ := Members(queues, 0), Members(queues, 1), Members(queues, 2);
    if |queues| <= 1 then 1
    else if fetchQ != [] && persistQ != [] then |PoolsOf(fetchQ, persistQ, otherQ)| * |Members(queues, PoolOf(q))|
    else |queues|
  }

  lemma {:induction false} ServedWeighted(queues: seq<string>, pools: seq<seq<string>>, c: Cursors,
                                          works: seq<iset<string>>, p: nat, j: nat) returns (i: nat)
    requires |queues| > 1 && Members(queues, 0) != [] && Members(queues, 1) != []
    requires pools == PoolsOf(Members(queues, 0), Members(queues, 1), Members(queues, 2))
    requires |c.perPool| == 3 && InRange(pools, c) && p < |pools| && j < |pools[p]|
    requires forall k :: 0 <= k < |works| ==> pools[p][j] in works[k]
    requires Waiting(pools, c, p, j) < |works|
    ensures i <= Waiting(pools, c, p, j) && Run(queues, c, works)[i] == Some(pools[p][j])
    decreases |works|
  {
    hide ChooseWeighted, Waiting, InRange;
    WeightedStep(pools, c, works[0], p, j);
    var choice := Choose(queues, c, works[0]);
    if choice.served == Some(pools[p][j]) {
      i := 0;
    } else {
      i := ServedWeighted(queues, pools, choice.cursors, works[1..], p, j);
      i := i + 1;
    }
  }

  /** A round-robin turn serves the queue or comes nearer to it. */
  lemma FairStep(queues: seq<string>, c: Cursors, work: iset<string>, j: nat)
    requires |queues| > 1 && (Members(queues, 0) == [] || Members(queues, 1) == [])
    requires |c.perPool| == 3 && c.queue < |queues| && j < |queues| && queues[j] in work
    ensures var choice := Choose(queues, c, work);
      && |choice.cursors.perPool| == 3 && choice.cursors.queue < |queues|
      && (choice.served == Some(queues[j]) ||
          Distance(|queues|, choice.cursors.queue, j) < Distance(|queues|, c.queue, j))
  {
    hide Wrapped, Distance, FairPickFrom, Members;
    PickIsAhead(queues, c.queue, work, j, 0);
  }

  lemma {:induction false} ServedFair(queues: seq<string>, c: Cursors, works: seq<iset<string>>, j: nat)
    returns (i: nat)
    requires |queues| > 1 && (Members(queues, 0) == [] || Members(queues, 1) == [])
    requires |c.perPool| == 3 && c.queue < |queues| && j < |queues|
    requires forall k :: 0 <= k < |works| ==> queues[j] in works[k]
    requires Distance(|queues|, c.queue, j) < |works|
    ensures i <= Distance(|queues|, c.queue, j) && Run(queues, c, works)[i] == Some(queues[j])
    decreases |works|
  {
    hide Choose, Distance;
    FairStep(queues, c, works[0], j);
    var choice := Choose(queues, c, works[0]);
    if choice.served == Some(queues[j]) {
      i := 0;
    } else {
      i := ServedFair(queues, choice.cursors, works[1..], j);
      i := i + 1;
    }
  }

  /** No starvation: while q keeps a reservable job, some reserve among the next Patience(queues, q) serves it. */
  lemma NoStarvation(queues: seq<string>, c: Cursors, works: seq<iset<string>>, q: string)
    requires Reachable(queues, c) && q in queues
    requires |works| >= Patience(queues, q) && forall k :: 0 <= k < |works| ==> q in works[k]
    ensures exists i :: 0 <= i < Patience(queues, q) && Run(queues, c, works)[i] == Some(q)
  {
    if |queues| <= 1 {
      assert Run(queues, c, works)[0] == Some(q);
    } else if Members(queues, 0) != [] && Members(queues, 1) != [] {
      var pools, p := PoolsOf(Members(queues, 0), Members(queues, 1), Members(queues, 2)), PoolOf(q);
      assert q in Members(queues, p) && pools[p] == Members(queues, p);
      var j :| 0 <= j < |pools[p]| && pools[p][j] == q;
      WaitingBound(pools, c, p, j);
      var i := ServedWeighted(queues, pools, c, works, p, j);
    } else {
      var j :| 0 <= j < |queues| && queues[j] == q;
      var i := ServedFair(queues, c, works, j);
    }
  }
}
