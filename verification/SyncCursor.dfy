/** The sync cursor of a dataset and the patches that change it (internal/service/sync/cursor.go).

    Times are whole nanoseconds. Each patch is one step here; the read and the write of ApplyPatch are not a
    transaction in the source, and CursorRace takes them apart. */
module SyncCursors {
  import opened Wrappers
  import opened Shared

  type Time = int

  const SECOND: int := 1_000_000_000

  datatype Cursor = Cursor(lastModification: Option<Time>, windowEnd: Option<Time>, nextUrl: Option<string>,
                           inProgress: bool, lastSyncFinished: Option<Time>)

  datatype Patch = Patch(applyReplicationState: bool, nextUrl: Option<string>, inProgress: Option<bool>,
                         maxModification: Option<Time>, windowEnd: Option<Time>, markFinished: bool)

  const NEW_CURSOR := Cursor(None, None, None, false, None)
  const NO_PATCH := Patch(false, None, None, None, None, false)

  /** mergeCursorPatch. */
  function Merge(c: Cursor, p: Patch, now: Time): Cursor {
    var last :=
      if p.maxModification.Some? && (c.lastModification.None? || p.maxModification.value > c.lastModification.value)
      then p.maxModification else c.lastModification;
    Cursor(last,
           if p.markFinished then None else if p.windowEnd.Some? then p.windowEnd else c.windowEnd,
           if p.applyReplicationState then p.nextUrl else c.nextUrl,
           if p.inProgress.Some? then p.inProgress.value else c.inProgress,
           if p.markFinished then Some(now) else c.lastSyncFinished)
  }

  /** The URL has a character other than white space. */
  predicate NonBlank(url: Option<string>) {
    url.Some? && exists i :: 0 <= i < |url.value| && !IsSpace(url.value[i])
  }

  predicate ReplicationChainActive(c: Cursor) { c.inProgress || NonBlank(c.nextUrl) }

  predicate ShouldKickoffReplication(c: Cursor, mirrorSeeded: bool) { !ReplicationChainActive(c) && !mirrorSeeded }

  predicate ShouldRunIncremental(c: Cursor) { !c.inProgress && c.lastModification.Some? }

  // ---- The cursor table --------------------------------------------------------------------------

  function RowOf(rows: map<string, Cursor>, dataset: string): Cursor {
    if dataset in rows then rows[dataset] else NEW_CURSOR
  }

  class CursorStore {
    var rows: map<string, Cursor>

    constructor ()
      ensures rows == map[]
    {
      rows := map[];
    }

    /** Creates the row on first use. */
    method ForDataset(dataset: string) returns (c: Cursor)
      modifies this
      ensures c == RowOf(old(rows), dataset) && rows == old(rows)[dataset := c]
    {
      if dataset !in rows {
        rows := rows[dataset := NEW_CURSOR];
      }
      c := rows[dataset];
    }

    method ApplyPatch(dataset: string, p: Patch, now: Time)
      modifies this
      ensures rows == old(rows)[dataset := Merge(RowOf(old(rows), dataset), p, now)]
    {
      var c := ForDataset(dataset);
      rows := rows[dataset := Merge(c, p, now)];
    }
  }

  // ---- Page maxima -------------------------------------------------------------------------------

  /** m is the largest timestamp among those present; None means that there are none. */
  ghost predicate IsMaximum(stamps: seq<Option<Time>>, m: Option<Time>) {
    && (m.Some? ==> m in stamps)
    && (forall t :: t in stamps && t.Some? ==> m.Some? && t.value <= m.value)
  }

  function PageMaximum(stamps: seq<Option<Time>>): (m: Option<Time>)
    ensures IsMaximum(stamps, m)
  {
    if stamps == [] then None else
      var n := |stamps| - 1;
      var m, t := PageMaximum(stamps[..n]), stamps[n];
      assert stamps == stamps[..n] + [t];
      if t.Some? && (m.None? || t.value > m.value) then t else m
  }

  /** maxModificationTimestampFromRows: rows without a readable timestamp are passed over. */
  method MaxModificationTimestamp(stamps: seq<Option<Time>>) returns (m: Option<Time>)
    ensures m == PageMaximum(stamps)
  {
    m := None;
    for i := 0 to |stamps|
      invariant m == PageMaximum(stamps[..i])
    {
      assert stamps[..i + 1][..i] == stamps[..i];
      if stamps[i].Some? {
        if m.None? || stamps[i].value > m.value {
          m := stamps[i];
        }
      }
    }
    assert stamps[..|stamps|] == stamps;
  }

  /** Formatting as RFC 3339 and parsing back drops the fraction of the second. */
  function ToSecond(t: Time): (s: Time)
    ensures s <= t < s + SECOND
  {
    t - t % SECOND
  }

  function Truncated(t: Option<Time>): Option<Time> {
    if t.Some? then Some(ToSecond(t.value)) else None
  }

  lemma ToSecondMonotone(a: Time, b: Time)
    requires a <= b
    ensures ToSecond(a) <= ToSecond(b)
  {
    assert ToSecond(a) == a / SECOND * SECOND && ToSecond(b) == b / SECOND * SECOND;
    assert a / SECOND <= b / SECOND;
  }

  // ---- Over runs ---------------------------------------------------------------------------------

  /** The cursor after patches in the given order, each applied at its own time. */
  function After(c: Cursor, patches: seq<(Patch, Time)>): Cursor {
    if patches == [] then c else
      var n := |patches| - 1;
      Merge(After(c, patches[..n]), patches[n].0, patches[n].1)
  }

  function Maxima(patches: seq<(Patch, Time)>): seq<Option<Time>> {
    if patches == [] then [] else Maxima(patches[..|patches| - 1]) + [patches[|patches| - 1].0.maxModification]
  }

  lemma {:induction false} LastIsMaximum(c: Cursor, patches: seq<(Patch, Time)>)
    ensures IsMaximum([c.lastModification] + Maxima(patches), After(c, patches).lastModification)
  {
    if patches == [] {
      assert [c.lastModification] + Maxima(patches) == [c.lastModification];
    } else {
      var n := |patches| - 1;
      var before, m := [c.lastModification] + Maxima(patches[..n]), patches[n].0.maxModification;
      LastIsMaximum(c, patches[..n]);
      assert [c.lastModification] + Maxima(patches) == before + [m];
    }
  }

  ghost predicate Sends(patches: seq<(Patch, Time)>, p: Patch) {
    exists i :: 0 <= i < |patches| && patches[i].0 == p
  }

  lemma {:induction false} MaximaAt(patches: seq<(Patch, Time)>)
    ensures |Maxima(patches)| == |patches|
    ensures forall i :: 0 <= i < |patches| ==> Maxima(patches)[i] == patches[i].0.maxModification
  {
    if patches != [] { MaximaAt(patches[..|patches| - 1]); }
  }

  lemma MaximaSent(patches: seq<(Patch, Time)>, others: seq<(Patch, Time)>, t: Option<Time>)
    requires forall p :: Sends(patches, p) ==> Sends(others, p)
    requires t in Maxima(patches)
    ensures t in Maxima(others)
  {
    MaximaAt(patches);
    MaximaAt(others);
    var i :| 0 <= i < |patches| && Maxima(patches)[i] == t;
    assert Sends(patches, patches[i].0);
    var j :| 0 <= j < |others| && others[j].0 == patches[i].0;
    assert Maxima(others)[j] == t;
  }

  /** In whatever order, at whatever times and however often the same patches are applied, the timestamp
      ends at the same value. */
  lemma OrderIsIrrelevant(c: Cursor, patches: seq<(Patch, Time)>, others: seq<(Patch, Time)>)
    requires forall p :: Sends(patches, p) <==> Sends(others, p)
    ensures After(c, patches).lastModification == After(c, others).lastModification
  {
    LastIsMaximum(c, patches);
    LastIsMaximum(c, others);
    forall t | t in Maxima(patches) ensures t in Maxima(others) { MaximaSent(patches, others, t); }
    forall t | t in Maxima(others) ensures t in Maxima(patches) { MaximaSent(others, patches, t); }
    var a, b := [c.lastModification] + Maxima(patches), [c.lastModification] + Maxima(others);
    assert forall t :: t in a <==> t == c.lastModification || t in Maxima(patches);
    assert forall t :: t in b <==> t == c.lastModification || t in Maxima(others);
  }

  /** a is no later than b; no timestamp comes first. */
  predicate NoLater(a: Option<Time>, b: Option<Time>) {
    a.Some? ==> b.Some? && a.value <= b.value
  }

  /** The timestamp never goes back, between any two moments of a run. */
  lemma {:induction false} NeverGoesBack(c: Cursor, patches: seq<(Patch, Time)>, i: nat, j: nat)
    requires i <= j <= |patches|
    ensures NoLater(After(c, patches[..i]).lastModification, After(c, patches[..j]).lastModification)
  {
    if i < j {
      NeverGoesBack(c, patches, i, j - 1);
      assert patches[..j][..j - 1] == patches[..j - 1];
    }
  }

  /** pages[i] holds the timestamps of the rows whose finalize sent patches[i]; a patch that is not from a
      finalize has no page rows and carries no maximum. */
  ghost predicate FromPages(patches: seq<(Patch, Time)>, pages: seq<seq<Option<Time>>>) {
    |pages| == |patches| && forall i :: 0 <= i < |patches| ==>
      patches[i].0.maxModification == Truncated(PageMaximum(pages[i]))
  }

  lemma RowReached(page: seq<Option<Time>>, t: Option<Time>, all: seq<Option<Time>>, last: Option<Time>)
    requires t in page && t.Some? && Truncated(PageMaximum(page)) in all && IsMaximum(all, last)
    ensures last.Some? && ToSecond(t.value) <= last.value
  {
    ToSecondMonotone(t.value, PageMaximum(page).value);
  }

  /** After any run the timestamp is the start value or the second of some finalised row, and it has
      reached the start value and the second of every finalised row. So it never passes the newest row
      actually finalised. */
  lemma CursorIsNewestFinalisedRow(c: Cursor, patches: seq<(Patch, Time)>, pages: seq<seq<Option<Time>>>)
    requires FromPages(patches, pages)
    ensures var last := After(c, patches).lastModification;
      && NoLater(c.lastModification, last)
      && (forall i, t :: 0 <= i < |pages| && t in pages[i] && t.Some? ==> last.Some? && ToSecond(t.value) <= last.value)
      && (last == c.lastModification ||
          exists i, t :: 0 <= i < |pages| && t in pages[i] && t.Some? && last == Some(ToSecond(t.value)))
  {
    hide After, PageMaximum, IsMaximum;
    var last, all := After(c, patches).lastModification, [c.lastModification] + Maxima(patches);
    LastIsMaximum(c, patches);
    MaximaAt(patches);
    assert all[0] == c.lastModification;
    forall i, t | 0 <= i < |pages| && t in pages[i] && t.Some?
      ensures last.Some? && ToSecond(t.value) <= last.value
    {
      assert all[i + 1] == patches[i].0.maxModification;
      RowReached(pages[i], t, all, last);
    }
    if last.Some? && last != c.lastModification {
      var k :| 0 <= k < |all| && all[k] == last;
      assert patches[k - 1].0.maxModification == last;
      ReachedByRow(pages[k - 1], last);
    }
  }

  lemma ReachedByRow(page: seq<Option<Time>>, last: Option<Time>)
    requires Truncated(PageMaximum(page)) == last && last.Some?
    ensures exists t :: t in page && t.Some? && last == Some(ToSecond(t.value))
  {
    var m := PageMaximum(page);
    assert m in page && m.Some?;
  }
}
