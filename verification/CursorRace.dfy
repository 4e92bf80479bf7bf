/** ApplyPatch at the level of statements (internal/service/sync/cursor.go): the cursor row is read, the patch
    is merged into what was read, and the whole row is written back, with nothing to keep two workers apart.

    While no two patches of one dataset overlap, a run is one of the atomic patches of SyncCursors. Two that
    overlap lose one of them, and exactly when their timestamps differ one order takes the cursor back. */
module CursorRace {
  import opened Wrappers
  import opened SyncCursors

  type WorkerId = nat

  /** Between its read and its write a worker carries the row as it was read. */
  datatype Pc = Idle | Merging(dataset: string, patch: Patch, seen: Cursor)

  datatype State = State(rows: map<string, Cursor>, workers: map<WorkerId, Pc>)

  datatype Step =
    | ReadRow(w: WorkerId, dataset: string, patch: Patch)
    | WriteRow(w: WorkerId, now: Time)
    | GiveUp(w: WorkerId)

  function PcOf(s: State, w: WorkerId): Pc { if w in s.workers then s.workers[w] else Idle }

  function Read(s: State, w: WorkerId, dataset: string, patch: Patch): State {
    var c := RowOf(s.rows, dataset);
    State(s.rows[dataset := c], s.workers[w := Merging(dataset, patch, c)])
  }

  function Written(s: State, w: WorkerId, now: Time): State
    requires PcOf(s, w).Merging?
  {
    var p := PcOf(s, w);
    State(s.rows[p.dataset := Merge(p.seen, p.patch, now)], s.workers[w := Idle])
  }

  ghost predicate Next(s: State, t: State, a: Step) {
    match a
    case ReadRow(w, dataset, patch) => PcOf(s, w).Idle? && t == Read(s, w, dataset, patch)
    case WriteRow(w, now) => PcOf(s, w).Merging? && t == Written(s, w, now)
    case GiveUp(w) => PcOf(s, w).Merging? && t == s.(workers := s.workers[w := Idle])
  }

  ghost predicate Run(states: seq<State>, steps: seq<Step>) {
    && |states| == |steps| + 1 && states[0].workers == map[]
    && forall i :: 0 <= i < |steps| ==> Next(states[i], states[i + 1], steps[i])
  }

  /** Worker w is between its read and its write on the dataset. */
  predicate Busy(s: State, w: WorkerId, dataset: string) { PcOf(s, w).Merging? && PcOf(s, w).dataset == dataset }

  /** No two patches of the dataset overlap. */
  ghost predicate Exclusive(s: State, dataset: string) {
    forall v, w :: Busy(s, v, dataset) && Busy(s, w, dataset) ==> v == w
  }

  // ---- Without overlaps --------------------------------------------------------------------------

  /** The patches that the first n steps have written to the dataset, each with its time. */
  function Sent(states: seq<State>, steps: seq<Step>, dataset: string, n: nat): seq<(Patch, Time)>
    requires n <= |steps| < |states|
  {
    if n == 0 then [] else
      var s, a, before := states[n - 1], steps[n - 1], Sent(states, steps, dataset, n - 1);
      if a.WriteRow? && Busy(s, a.w, dataset) then before + [(PcOf(s, a.w).patch, a.now)] else before
  }

  ghost predicate SeesRow(s: State, dataset: string) {
    forall w :: Busy(s, w, dataset) ==> PcOf(s, w).seen == RowOf(s.rows, dataset)
  }

  lemma StepSeesRow(s: State, t: State, a: Step, dataset: string)
    requires SeesRow(s, dataset) && Exclusive(s, dataset) && Next(s, t, a)
    ensures SeesRow(t, dataset)
    ensures RowOf(t.rows, dataset) ==
      if a.WriteRow? && Busy(s, a.w, dataset) then Merge(RowOf(s.rows, dataset), PcOf(s, a.w).patch, a.now)
      else RowOf(s.rows, dataset)
  {
    forall v | Busy(t, v, dataset) ensures PcOf(t, v).seen == RowOf(t.rows, dataset) {
      if v != a.w {
        assert PcOf(t, v) == PcOf(s, v) && Busy(s, v, dataset);
        assert a.WriteRow? ==> !Busy(s, a.w, dataset);
      }
    }
  }

  lemma AfterOneMore(c: Cursor, patches: seq<(Patch, Time)>, p: (Patch, Time))
    ensures After(c, patches + [p]) == Merge(After(c, patches), p.0, p.1)
  {
    assert (patches + [p])[..|patches|] == patches;
  }

  /** While no two patches of a dataset overlap, its cursor is the one that the patches written so far give when
      each is applied at once. */
  lemma {:induction false} ExclusiveIsAtomic(states: seq<State>, steps: seq<Step>, dataset: string, n: nat)
    requires Run(states, steps) && n <= |steps| && forall i :: 0 <= i <= n ==> Exclusive(states[i], dataset)
    ensures SeesRow(states[n], dataset)
    ensures RowOf(states[n].rows, dataset) == After(RowOf(states[0].rows, dataset), Sent(states, steps, dataset, n))
  {
    if n > 0 {
      ExclusiveIsAtomic(states, steps, dataset, n - 1);
      StepSeesRow(states[n - 1], states[n], steps[n - 1], dataset);
      var s, a := states[n - 1], steps[n - 1];
      if a.WriteRow? && Busy(s, a.w, dataset) {
        AfterOneMore(RowOf(states[0].rows, dataset), Sent(states, steps, dataset, n - 1), (PcOf(s, a.w).patch, a.now));
      }
    }
  }

  lemma {:induction false} SentGrows(states: seq<State>, steps: seq<Step>, dataset: string, i: nat, j: nat)
    requires i <= j <= |steps| < |states|
    ensures Sent(states, steps, dataset, i) <= Sent(states, steps, dataset, j)
  {
    if i < j { SentGrows(states, steps, dataset, i, j - 1); }
  }

  /** So its timestamp never goes back. */
  lemma ExclusiveNeverGoesBack(states: seq<State>, steps: seq<Step>, dataset: string, i: nat, j: nat)
    requires Run(states, steps) && i <= j <= |steps| && forall m :: 0 <= m <= j ==> Exclusive(states[m], dataset)
    ensures NoLater(RowOf(states[i].rows, dataset).lastModification, RowOf(states[j].rows, dataset).lastModification)
  {
    ExclusiveIsAtomic(states, steps, dataset, i);
    ExclusiveIsAtomic(states, steps, dataset, j);
    SentGrows(states, steps, dataset, i, j);
    var early, late := Sent(states, steps, dataset, i), Sent(states, steps, dataset, j);
    assert late[..|early|] == early && late[..|late|] == late;
    NeverGoesBack(RowOf(states[0].rows, dataset), late, |early|, |late|);
  }

  // ---- With an overlap ---------------------------------------------------------------------------

  /** The timestamp that a worker is about to write; the time of the write does not matter for it. */
  function Stamp(s: State, w: WorkerId): Option<Time>
    requires PcOf(s, w).Merging?
  {
    Merge(PcOf(s, w).seen, PcOf(s, w).patch, 0).lastModification
  }

  /** Of two patches that overlap, in any state whatsoever, the one written second leaves no trace of the first,
      and takes the timestamp back exactly when its own is the earlier one. */
  lemma OverlapLosesPatch(s: State, dataset: string, v: WorkerId, w: WorkerId, now: Time)
    requires v != w && Busy(s, v, dataset) && Busy(s, w, dataset)
    ensures Next(s, Written(s, v, now), WriteRow(v, now)) && PcOf(Written(s, v, now), w) == PcOf(s, w)
    ensures var mid := Written(s, v, now);
      var last := Written(mid, w, now);
      && Next(mid, last, WriteRow(w, now))
      && RowOf(last.rows, dataset) == RowOf(Written(s, w, now).rows, dataset)
      && (NoLater(RowOf(mid.rows, dataset).lastModification, RowOf(last.rows, dataset).lastModification) <==>
          NoLater(Stamp(s, v), Stamp(s, w)))
  {
  }

  /** So two overlapping patches can take the timestamp back unless theirs are the same. */
  lemma OverlapGoesBack(s: State, dataset: string, v: WorkerId, w: WorkerId, now: Time)
    requires v != w && Busy(s, v, dataset) && Busy(s, w, dataset)
    ensures Stamp(s, v) == Stamp(s, w) <==>
      && NoLater(RowOf(Written(s, v, now).rows, dataset).lastModification,
                 RowOf(Written(Written(s, v, now), w, now).rows, dataset).lastModification)
      && NoLater(RowOf(Written(s, w, now).rows, dataset).lastModification,
                 RowOf(Written(Written(s, w, now), v, now).rows, dataset).lastModification)
  {
    OverlapLosesPatch(s, dataset, v, w, now);
    OverlapLosesPatch(s, dataset, w, v, now);
  }

  /** From any cursor table, two workers whose finalised pages end at a and at an earlier b can leave the cursor
      at b after it was at a. */
  lemma RunGoesBack(rows: map<string, Cursor>, dataset: string, a: Time, b: Time, now: Time)
    returns (states: seq<State>, steps: seq<Step>)
    requires a > b && NoLater(RowOf(rows, dataset).lastModification, Some(b))
    ensures Run(states, steps) && |steps| == 4 && states[0].rows == rows
    ensures RowOf(states[3].rows, dataset).lastModification == Some(a)
    ensures RowOf(states[4].rows, dataset).lastModification == Some(b)
  {
    var late, early := NO_PATCH.(maxModification := Some(a)), NO_PATCH.(maxModification := Some(b));
    var s0 := State(rows, map[]);
    var s1 := Read(s0, 0, dataset, late);
    var s2 := Read(s1, 1, dataset, early);
    var s3 := Written(s2, 0, now);
    var s4 := Written(s3, 1, now);
    states, steps := [s0, s1, s2, s3, s4],
      [ReadRow(0, dataset, late), ReadRow(1, dataset, early), WriteRow(0, now), WriteRow(1, now)];
  }
}
