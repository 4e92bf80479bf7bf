/** The mirror writer inside the pipeline: each transaction of HydrateReplicaBatch is a WriteRows step,
    whatever other workers have committed since the last one (internal/service/sync/listing_mirror.go,
    internal/queue/worker.go). */
module PersistWriter {
  import opened Wrappers
  import opened ListingMirror
  import opened ListingMirrorWriting
  import opened PersistProtocol

  /** The positions that the first n commits of a call have written. */
  function DoneAfter(rows: seq<Row>, cs: seq<Commit>, n: nat): set<nat>
    requires n <= |cs|
  {
    if n == 0 then {} else DoneAfter(rows, cs, n - 1) + PositionsOf(rows, cs[n - 1])
  }

  function LeftAfter(rows: seq<Row>, cs: seq<Commit>, n: nat): set<nat>
    requires n <= |cs|
  {
    Positions(|rows|) - DoneAfter(rows, cs, n)
  }

  /** Worker w is in its call on rows, n commits in. */
  ghost predicate InCall(s: State, w: WorkerId, rows: seq<Row>, cs: seq<Commit>, n: nat)
    requires n <= |cs|
  {
    PcOf(s, w).Writing? && PcOf(s, w).rows == rows && PcOf(s, w).todo == LeftAfter(rows, cs, n)
  }

  lemma PositionsInRange(rows: seq<Row>, cs: seq<Commit>, i: nat)
    requires Performs(rows, cs) && i < |cs|
    ensures PositionsOf(rows, cs[i]) <= Positions(|rows|)
  {
    assert Describes(rows, cs[i]);
  }

  lemma {:induction false} DoneIsApart(rows: seq<Row>, cs: seq<Commit>, n: nat, some: set<nat>)
    requires n <= |cs| && forall j :: 0 <= j < n ==> PositionsOf(rows, cs[j]) !! some
    ensures some !! DoneAfter(rows, cs, n)
  {
    if n > 0 { DoneIsApart(rows, cs, n - 1, some); }
  }

  lemma {:induction false} DoneCovers(rows: seq<Row>, cs: seq<Commit>, n: nat, i: nat)
    requires i < n <= |cs|
    ensures PositionsOf(rows, cs[i]) <= DoneAfter(rows, cs, n)
  {
    if i < n - 1 { DoneCovers(rows, cs, n - 1, i); }
  }

  /** The next commit keeps to the order of the call. */
  lemma NextKeepsOrder(rows: seq<Row>, cs: seq<Commit>, n: nat)
    requires Performs(rows, cs) && n < |cs|
    ensures KeepsOrder(rows, LeftAfter(rows, cs, n), cs[n])
  {
    forall p | p in LeftAfter(rows, cs, n) && p < |rows| && rows[p].Upsert? && !(cs[n].Flushed? && p in cs[n].at)
      ensures cs[n].Flushed? && forall q :: q in cs[n].at ==> q < p
    {
      var i := CommitsCoverRows(rows, cs, p);
      if i < n { DoneCovers(rows, cs, n, i); }
      assert cs[i].Flushed? && i > n;
      forall q | q in cs[n].at ensures q < p { FlushesInOrder(rows, cs, n, i, q, p); }
    }
  }

  /** The next commit writes rows that are left, whatever table it meets. */
  lemma NextCommit(rows: seq<Row>, cs: seq<Commit>, n: nat)
    requires Performs(rows, cs) && n < |cs|
    ensures PositionsOf(rows, cs[n]) <= LeftAfter(rows, cs, n)
    ensures LeftAfter(rows, cs, n) - PositionsOf(rows, cs[n]) == LeftAfter(rows, cs, n + 1)
    ensures forall u :: Commits(u, rows, LeftAfter(rows, cs, n), PositionsOf(rows, cs[n]), After(cs[n], u))
  {
    PositionsInRange(rows, cs, n);
    forall j | 0 <= j < n
      ensures PositionsOf(rows, cs[j]) !! PositionsOf(rows, cs[n])
    {
      CommitsAreApart(rows, cs, j, n);
    }
    DoneIsApart(rows, cs, n, PositionsOf(rows, cs[n]));
    NextKeepsOrder(rows, cs, n);
    assert Describes(rows, cs[n]);
  }

  /** After the last commit only rows are left that write nothing. */
  lemma OnlySkipsLeft(rows: seq<Row>, cs: seq<Commit>)
    requires Performs(rows, cs)
    ensures forall p :: p in LeftAfter(rows, cs, |cs|) ==> p < |rows| && rows[p].Skip?
  {
    forall p | p in LeftAfter(rows, cs, |cs|) ensures rows[p].Skip? {
      if Writes(rows[p]) {
        var i := CommitsCoverRows(rows, cs, p);
        DoneCovers(rows, cs, |cs|, i);
      }
    }
  }

  /** The state after worker w writes the given positions, leaving the mirror given. */
  function Wrote(s: State, w: WorkerId, sub: set<nat>, mirror: Table): State
    requires PcOf(s, w).Writing?
  {
    var p := PcOf(s, w);
    Go(s, w, p.(todo := p.todo - sub)).(mirror := mirror, stored := NoteWritten(s.stored, p.r.job.task, sub))
  }

  lemma WroteIsStep(s: State, w: WorkerId, sub: set<nat>, mirror: Table)
    requires PcOf(s, w).Writing? && sub <= PcOf(s, w).todo
    requires Commits(s.mirror, PcOf(s, w).rows, PcOf(s, w).todo, sub, mirror)
    ensures WriteStep(s, Wrote(s, w, sub, mirror), w, sub, mirror)
    ensures var p := PcOf(Wrote(s, w, sub, mirror), w);
      p.Writing? && p.rows == PcOf(s, w).rows && p.todo == PcOf(s, w).todo - sub
  {
  }

  /** From any state in which the call has made n commits, its next commit is a write step. */
  lemma CommitIsStep(s: State, w: WorkerId, rows: seq<Row>, cs: seq<Commit>, n: nat)
    requires Performs(rows, cs) && n < |cs| && InCall(s, w, rows, cs, n)
    ensures var sub, mirror := PositionsOf(rows, cs[n]), After(cs[n], s.mirror);
      WriteStep(s, Wrote(s, w, sub, mirror), w, sub, mirror) && InCall(Wrote(s, w, sub, mirror), w, rows, cs, n + 1)
  {
    NextCommit(rows, cs, n);
    WroteIsStep(s, w, PositionsOf(rows, cs[n]), After(cs[n], s.mirror));
  }

  /** The rows that are left are passed over by a write step that changes nothing, and the chunk is finished. */
  lemma CallFinishes(s: State, w: WorkerId, rows: seq<Row>, cs: seq<Commit>)
    requires Performs(rows, cs) && InCall(s, w, rows, cs, |cs|)
    ensures var sub := LeftAfter(rows, cs, |cs|);
      WriteStep(s, Wrote(s, w, sub, s.mirror), w, sub, s.mirror) && PcOf(Wrote(s, w, sub, s.mirror), w).todo == {}
  {
    OnlySkipsLeft(rows, cs);
    var sub := LeftAfter(rows, cs, |cs|);
    assert Commits(s.mirror, rows, sub, sub, s.mirror);
    WroteIsStep(s, w, sub, s.mirror);
    assert sub - sub == {};
  }

  /** Other workers' steps leave the call where it is. */
  lemma OthersLeaveCall(s: State, t: State, a: Step, w: WorkerId, rows: seq<Row>, cs: seq<Commit>, n: nat)
    requires n <= |cs| && InCall(s, w, rows, cs, n) && Next(s, t, a) && Actor(a) != Some(w)
    ensures InCall(t, w, rows, cs, n)
  {
    OthersStay(s, t, a);
  }
}
