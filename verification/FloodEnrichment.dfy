/** The low-risk flag of a flood zone code (internal/service/mls/flood_risk.go) and its consistency in the
    listings table under mirror writes and FEMA updates. */
module FloodZones {
  import opened Wrappers
  import opened Shared
  import opened ListingMirror
  import opened ListingMirrorWriting

  // ---- The flag ----------------------------------------------------------------------------------

  function Trimmed(s: string): string {
    if s != "" && IsSpace(s[0]) then Trimmed(s[1..])
    else if s != "" && IsSpace(s[|s| - 1]) then Trimmed(s[..|s| - 1])
    else s
  }

  function Upper(c: char): char { if 'a' <= c <= 'z' then 'A' + (c - 'a') else c }

  function ToUpper(s: string): (u: string)
    ensures |u| == |s| && forall i :: 0 <= i < |s| ==> u[i] == Upper(s[i])
  {
    seq(|s|, i requires 0 <= i < |s| => Upper(s[i]))
  }

  function Lower(c: char): char { if 'A' <= c <= 'Z' then 'a' + (c - 'A') else c }

  function ToLower(s: string): (u: string)
    ensures |u| == |s| && forall i :: 0 <= i < |s| ==> u[i] == Lower(s[i])
  {
    seq(|s|, i requires 0 <= i < |s| => Lower(s[i]))
  }

  predicate OccursAt(s: string, part: string, i: int) {
    0 <= i <= |s| - |part| && s[i..i + |part|] == part
  }

  predicate Contains(s: string, part: string) {
    exists i :: 0 <= i <= |s| && OccursAt(s, part, i)
  }

  function ComputeLowRiskFloodZoneYN(floodZoneCode: Option<string>): bool {
    if floodZoneCode.None? then false
    else
      var code := Trimmed(floodZoneCode.value);
      if code == "" then false
      else
        var upper := ToUpper(code);
        if Contains(upper, "A") || Contains(upper, "V") then false
        else if Contains(upper, "X500") then true
        else if Contains(ToLower(code), "no") then true
        else Contains(upper, "X")
  }

  predicate HasLetter(s: string, small: char, capital: char) {
    exists i :: 0 <= i < |s| && (s[i] == small || s[i] == capital)
  }

  predicate HasNo(s: string) {
    exists i :: 0 <= i < |s| - 1 && (s[i] == 'n' || s[i] == 'N') && (s[i + 1] == 'o' || s[i + 1] == 'O')
  }

  lemma {:induction false} TrimmedKeepsLetters(s: string)
    ensures forall c, d :: !IsSpace(c) && !IsSpace(d) ==> (HasLetter(Trimmed(s), c, d) <==> HasLetter(s, c, d))
    ensures HasNo(Trimmed(s)) <==> HasNo(s)
  {
    if s != "" && IsSpace(s[0]) {
      TrimmedKeepsLetters(s[1..]);
      FirstIsSpace(s);
    } else if s != "" && IsSpace(s[|s| - 1]) {
      TrimmedKeepsLetters(s[..|s| - 1]);
      LastIsSpace(s);
    }
  }

  lemma FirstIsSpace(s: string)
    requires s != "" && IsSpace(s[0])
    ensures forall c, d :: !IsSpace(c) && !IsSpace(d) ==> (HasLetter(s[1..], c, d) <==> HasLetter(s, c, d))
    ensures HasNo(s[1..]) <==> HasNo(s)
  {
    var t := s[1..];
    forall c, d | !IsSpace(c) && !IsSpace(d) ensures HasLetter(t, c, d) <==> HasLetter(s, c, d) {
      if i :| 0 <= i < |s| && (s[i] == c || s[i] == d) { assert t[i - 1] == s[i]; }
      if i :| 0 <= i < |t| && (t[i] == c || t[i] == d) { assert s[i + 1] == t[i]; }
    }
    if i :| 0 <= i < |s| - 1 && (s[i] == 'n' || s[i] == 'N') && (s[i + 1] == 'o' || s[i + 1] == 'O') {
      assert t[i - 1] == s[i] && t[i - 1 + 1] == s[i + 1];
    }
    if i :| 0 <= i < |t| - 1 && (t[i] == 'n' || t[i] == 'N') && (t[i + 1] == 'o' || t[i + 1] == 'O') {
      assert s[i + 1] == t[i] && s[i + 1 + 1] == t[i + 1];
    }
  }

  lemma LastIsSpace(s: string)
    requires s != "" && IsSpace(s[|s| - 1])
    ensures forall c, d :: !IsSpace(c) && !IsSpace(d) ==> (HasLetter(s[..|s| - 1], c, d) <==> HasLetter(s, c, d))
    ensures HasNo(s[..|s| - 1]) <==> HasNo(s)
  {
    var t := s[..|s| - 1];
    forall c, d | !IsSpace(c) && !IsSpace(d) ensures HasLetter(t, c, d) <==> HasLetter(s, c, d) {
      if i :| 0 <= i < |s| && (s[i] == c || s[i] == d) { assert t[i] == s[i]; }
      if i :| 0 <= i < |t| && (t[i] == c || t[i] == d) { assert s[i] == t[i]; }
    }
    if i :| 0 <= i < |s| - 1 && (s[i] == 'n' || s[i] == 'N') && (s[i + 1] == 'o' || s[i + 1] == 'O') {
      assert t[i] == s[i] && t[i + 1] == s[i + 1];
    }
    if i :| 0 <= i < |t| - 1 && (t[i] == 'n' || t[i] == 'N') && (t[i + 1] == 'o' || t[i + 1] == 'O') {
      assert s[i] == t[i] && s[i + 1] == t[i + 1];
    }
  }

  lemma ContainsLetter(s: string, small: char, capital: char)
    requires 'a' <= small <= 'z' && capital == Upper(small)
    ensures Contains(ToUpper(s), [capital]) <==> HasLetter(s, small, capital)
  {
    var u := ToUpper(s);
    if i :| 0 <= i < |s| && (s[i] == small || s[i] == capital) {
      assert OccursAt(u, [capital], i);
    }
    if i :| 0 <= i <= |u| && OccursAt(u, [capital], i) {
      assert u[i] == u[i..i + 1][0];
      assert s[i] == small || s[i] == capital;
    }
  }

  lemma ContainsNo(s: string)
    ensures Contains(ToLower(s), "no") <==> HasNo(s)
  {
    var u, no := ToLower(s), "no";
    if i :| 0 <= i < |s| - 1 && (s[i] == 'n' || s[i] == 'N') && (s[i + 1] == 'o' || s[i + 1] == 'O') {
      assert u[i] == no[0] && u[i + 1] == no[1] && |u[i..i + 2]| == |no|;
      assert u[i..i + 2] == no;
      assert OccursAt(u, no, i);
    }
    if i :| 0 <= i <= |u| && OccursAt(u, no, i) {
      assert u[i..i + |no|] == no && |no| == 2;
      assert u[i] == u[i..i + 2][0] == 'n' && u[i + 1] == u[i..i + 2][1] == 'o';
      assert Lower(s[i]) == 'n' && Lower(s[i + 1]) == 'o';
      assert (s[i] == 'n' || s[i] == 'N') && (s[i + 1] == 'o' || s[i + 1] == 'O');
    }
  }

  lemma ContainsX500(s: string)
    ensures Contains(s, "X500") ==> Contains(s, "X")
  {
    if i :| 0 <= i <= |s| && OccursAt(s, "X500", i) {
      assert s[i..i + 1] == s[i..i + 4][..1];
      assert OccursAt(s, "X", i);
    }
  }

  /** A code is low risk exactly when it has no letter A or V, in either case, and has an X or the word
      part "no". Surrounding space, the empty code and the X500 test make no difference. */
  lemma LowRiskMeaning(code: string)
    ensures ComputeLowRiskFloodZoneYN(Some(code)) <==>
      !HasLetter(code, 'a', 'A') && !HasLetter(code, 'v', 'V') && (HasLetter(code, 'x', 'X') || HasNo(code))
  {
    var t := Trimmed(code);
    TrimmedKeepsLetters(code);
    ContainsLetter(t, 'a', 'A');
    ContainsLetter(t, 'v', 'V');
    ContainsLetter(t, 'x', 'X');
    ContainsNo(t);
    ContainsX500(ToUpper(t));
  }

  // ---- Consistency -------------------------------------------------------------------------------

  /** The columns that a FEMA update sets, from the zone of a successful point query if there is one. */
  datatype Update = Update(zone: Option<string>, lowRisk: bool)

  function BuildListingFEMAUpdate(attrs: Option<Option<string>>): (u: Update)
    ensures u.lowRisk == ComputeLowRiskFloodZoneYN(u.zone)
    ensures u.zone == if attrs.Some? then attrs.value else None
  {
    if attrs.Some? then Update(attrs.value, ComputeLowRiskFloodZoneYN(attrs.value)) else Update(None, false)
  }

  ghost predicate FlagsMatch(t: Table) {
    forall k :: k in t ==> t[k].lowRisk == ComputeLowRiskFloodZoneYN(t[k].femaZone)
  }

  datatype Step =
    | MirrorCommit(c: Commit)
    | Enrich(updates: map<Key, Option<Option<string>>>)

  /** A transaction of the mirror writer, whose records never carry a low-risk flag, or a batch of FEMA updates
      to rows that may have been deleted meanwhile. */
  ghost predicate Next(t: Table, u: Table, a: Step) {
    match a
    case MirrorCommit(c) => (c.Flushed? ==> forall rec :: rec in c.records ==> !rec.lowRisk) && u == After(c, t)
    case Enrich(updates) => u == map k | k in t :: if k in updates then WithZone(t[k], updates[k]) else t[k]
  }

  function WithZone(l: Listing, attrs: Option<Option<string>>): Listing {
    var u := BuildListingFEMAUpdate(attrs);
    l.(femaZone := u.zone, lowRisk := u.lowRisk)
  }

  lemma {:induction false} UpsertsKeepFlags(t: Table, records: seq<Record>)
    requires FlagsMatch(t) && forall rec :: rec in records ==> !rec.lowRisk
    ensures FlagsMatch(UpsertAll(t, records))
  {
    if records != [] { UpsertsKeepFlags(t, records[..|records| - 1]); }
  }

  lemma {:induction false} PlacingKeepsFlags(t: Table, records: seq<Record>)
    requires FlagsMatch(t)
    ensures FlagsMatch(PlaceAll(t, records))
  {
    if records != [] { PlacingKeepsFlags(t, records[..|records| - 1]); }
  }

  lemma CommitKeepsFlags(t: Table, u: Table, c: Commit)
    requires FlagsMatch(t) && Next(t, u, MirrorCommit(c))
    ensures FlagsMatch(u)
  {
    if c.Flushed? {
      UpsertsKeepFlags(t, c.records);
      PlacingKeepsFlags(UpsertAll(t, c.records), c.records);
    }
  }

  /** However the writer's transactions and FEMA batches interleave, every flag is that of its row's FEMA code. */
  lemma {:induction false} FlagsAlwaysMatch(tables: seq<Table>, steps: seq<Step>, n: nat)
    requires |tables| == |steps| + 1 && n < |tables| && FlagsMatch(tables[0])
    requires forall i :: 0 <= i < |steps| ==> Next(tables[i], tables[i + 1], steps[i])
    ensures FlagsMatch(tables[n])
  {
    if n > 0 {
      FlagsAlwaysMatch(tables, steps, n - 1);
      if steps[n - 1].MirrorCommit? {
        CommitKeepsFlags(tables[n - 1], tables[n], steps[n - 1].c);
      }
    }
  }
}

/** Self-chaining FEMA batches over the stale listings (internal/service/fema/enrich.go,
    internal/repository/fema/listings.go). */
module FloodEnrichment {
  import opened Wrappers
  import opened FloodZones

  /** A listing as the batch sees it; due means that it has coordinates and no recent FEMA update. */
  datatype Row = Row(id: int, due: bool, zone: Option<string>, lowRisk: bool)

  /** The table in primary key order. */
  ghost predicate Sorted(rows: seq<Row>) {
    forall i, j :: 0 <= i < j < |rows| ==> rows[i].id < rows[j].id
  }

  datatype BatchArgs = BatchArgs(cursor: int, limit: int)

  /** The due ids past the cursor, in order. */
  function DueAfter(rows: seq<Row>, cursor: int): seq<int> {
    if rows == [] then [] else
      (if rows[0].id > cursor && rows[0].due then [rows[0].id] else []) + DueAfter(rows[1..], cursor)
  }

  function Limit(args: BatchArgs, batchSize: int): (n: nat)
    ensures n > 0
  {
    if args.limit > 0 then args.limit else if batchSize > 0 then batchSize else 2000
  }

  function Selected(rows: seq<Row>, cursor: int, limit: nat): (ids: seq<int>)
    ensures ids <= DueAfter(rows, cursor) && |ids| <= limit
  {
    var all := DueAfter(rows, cursor);
    if |all| <= limit then all else all[..limit]
  }

  /** Answers of the point queries: no entry for a query that failed. */
  type Answers = map<int, Option<Option<string>>>

  function Updated(row: Row, ids: set<int>, answers: Answers): Row {
    if row.id in ids && row.id in answers then
      var u := BuildListingFEMAUpdate(answers[row.id]);
      Row(row.id, false, u.zone, u.lowRisk)
    else row
  }

  function Enriched(rows: seq<Row>, ids: set<int>, answers: Answers): (r: seq<Row>)
    ensures |r| == |rows| && forall i :: 0 <= i < |rows| ==> r[i] == Updated(rows[i], ids, answers)
  {
    seq(|rows|, i requires 0 <= i < |rows| => Updated(rows[i], ids, answers))
  }

  function IdSet(ids: seq<int>): set<int> { set i | i in ids }

  class EnrichmentService {
    var rows: seq<Row>
    var jobs: seq<BatchArgs>

    method SelectStaleForEnrichment(cursor: int, limit: nat) returns (ids: seq<int>)
      requires limit > 0
      ensures ids == Selected(rows, cursor, limit)
    {
      ids := [];
      assert DueAfter(rows[|rows|..], cursor) == [] && rows[0..] == rows;
      hide DueAfter;
      for i := 0 to |rows|
        invariant |ids| < limit && ids + DueAfter(rows[i..], cursor) == DueAfter(rows, cursor)
      {
        assert rows[i..][1..] == rows[i + 1..];
        DueStep(rows[i..], cursor);
        if rows[i].id > cursor && rows[i].due {
          ids := ids + [rows[i].id];
          if |ids| == limit {
            return;
          }
        }
      }
    }

    /** One transaction. The ids may come in any order: the queries finish in any order. */
    method BatchUpdateFEMA(ids: seq<int>, answers: Answers)
      modifies this`rows
      ensures rows == Enriched(old(rows), IdSet(ids), answers)
    {
      assert rows == Enriched(rows, IdSet(ids[..0]), answers);
      for i := 0 to |ids|
        invariant rows == Enriched(old(rows), IdSet(ids[..i]), answers)
      {
        IdSetSplit(ids[..i + 1], i);
        assert ids[..i + 1][..i] == ids[..i] && ids[..i + 1][i..] == [ids[i]] && IdSet([ids[i]]) == {ids[i]};
        EnrichedTwice(old(rows), IdSet(ids[..i]), {ids[i]}, answers);
        rows := Enriched(rows, {ids[i]}, answers);
      }
      assert ids[..|ids|] == ids;
    }

    method RunBatch(args: BatchArgs, batchSize: int, answers: Answers) returns (visited: seq<int>)
      modifies this
      ensures visited == Selected(old(rows), args.cursor, Limit(args, batchSize))
      ensures rows == Enriched(old(rows), IdSet(visited), answers)
      ensures jobs == if |visited| == Limit(args, batchSize)
                      then old(jobs) + [BatchArgs(visited[|visited| - 1], Limit(args, batchSize))] else old(jobs)
    {
      var limit := args.limit;
      if limit <= 0 {
        limit := batchSize;
      }
      if limit <= 0 {
        limit := 2000;
      }
      visited := SelectStaleForEnrichment(args.cursor, limit);
      if |visited| == 0 {
        assert forall i :: 0 <= i < |rows| ==> Updated(rows[i], IdSet(visited), answers) == rows[i];
        return;
      }
      BatchUpdateFEMA(visited, answers);
      var maxId := visited[|visited| - 1];
      if |visited| == limit {
        jobs := jobs + [BatchArgs(maxId, limit)];
      }
    }
  }

  // ---- A chain of batches ------------------------------------------------------------------------

  ghost predicate IsDue(rows: seq<Row>, id: int) {
    exists i :: 0 <= i < |rows| && rows[i].id == id && rows[i].due
  }

  lemma {:induction false} DueAfterIds(rows: seq<Row>, cursor: int, id: int)
    ensures id in DueAfter(rows, cursor) <==> id > cursor && IsDue(rows, id)
  {
    if rows != [] {
      DueAfterIds(rows[1..], cursor, id);
      if IsDue(rows, id) {
        var i :| 0 <= i < |rows| && rows[i].id == id && rows[i].due;
        if i > 0 { assert rows[1..][i - 1] == rows[i]; }
      }
      if IsDue(rows[1..], id) {
        var i :| 0 <= i < |rows[1..]| && rows[1..][i].id == id && rows[1..][i].due;
        assert rows[i + 1] == rows[1..][i];
      }
    }
  }

  ghost predicate Increasing(ids: seq<int>) {
    forall i, j :: 0 <= i < j < |ids| ==> ids[i] < ids[j]
  }

  lemma {:induction false} DueAfterIncreases(rows: seq<Row>, cursor: int)
    requires Sorted(rows)
    ensures Increasing(DueAfter(rows, cursor))
  {
    if rows != [] {
      var rest := DueAfter(rows[1..], cursor);
      DueAfterIncreases(rows[1..], cursor);
      forall id | id in rest ensures rows[0].id < id { DueIsLater(rows, cursor, id); }
      assert forall i :: 0 <= i < |rest| ==> rest[i] in rest;
    }
  }

  /** Due ids past the first row are greater than its id. */
  lemma DueIsLater(rows: seq<Row>, cursor: int, id: int)
    requires Sorted(rows) && rows != [] && id in DueAfter(rows[1..], cursor)
    ensures rows[0].id < id
  {
    DueAfterIds(rows[1..], cursor, id);
    var i :| 0 <= i < |rows[1..]| && rows[1..][i].id == id && rows[1..][i].due;
    assert rows[i + 1] == rows[1..][i];
  }

  /** Updating rows at or before the new cursor leaves the rest of the work as it was. */
  lemma {:induction false} DueAfterUpdate(rows: seq<Row>, cursor: int, ids: set<int>, answers: Answers)
    requires forall id :: id in ids ==> id <= cursor
    ensures DueAfter(Enriched(rows, ids, answers), cursor) == DueAfter(rows, cursor)
  {
    if rows != [] {
      DueAfterUpdate(rows[1..], cursor, ids, answers);
      assert Enriched(rows, ids, answers)[1..] == Enriched(rows[1..], ids, answers);
    }
  }

  /** The first row is due, or its id plays no part. */
  lemma DueStep(rows: seq<Row>, cursor: int)
    requires rows != []
    ensures DueAfter(rows, cursor) ==
      if rows[0].id > cursor && rows[0].due then [rows[0].id] + DueAfter(rows[1..], cursor)
        else DueAfter(rows[1..], cursor)
  {
  }

  /** What is left past the last of a prefix of the due ids is the rest of them. */
  lemma {:induction false} DueAfterCut(rows: seq<Row>, cursor: int, n: nat)
    requires Sorted(rows) && 0 < n <= |DueAfter(rows, cursor)|
    ensures DueAfter(rows, DueAfter(rows, cursor)[n - 1]) == DueAfter(rows, cursor)[n..]
  {
    assert rows != [];
    hide DueAfter;
    DueStep(rows, cursor);
    var all, rest := DueAfter(rows, cursor), rows[1..];
    var after := DueAfter(rest, cursor);
    DueStep(rows, all[n - 1]);
    if rows[0].id > cursor && rows[0].due {
      if n == 1 {
        NothingBefore(rest, cursor, all[0]);
      } else {
        DueAfterCut(rest, cursor, n - 1);
        DueIsLater(rows, cursor, after[n - 2]);
        assert all[n..] == after[n - 1..];
      }
    } else {
      DueAfterCut(rest, cursor, n);
      DueIsLater(rows, cursor, after[n - 1]);
    }
  }

  lemma {:induction false} NothingBefore(rows: seq<Row>, cursor: int, first: int)
    requires cursor <= first && forall i :: 0 <= i < |rows| ==> rows[i].id > first
    ensures DueAfter(rows, first) == DueAfter(rows, cursor)
  {
    if rows != [] { NothingBefore(rows[1..], cursor, first); }
  }

  datatype Outcome = Outcome(visited: seq<int>, rows: seq<Row>, batches: nat)

  /** The batches that a batch starts: each full one enqueues the next from its last id. */
  function Chain(rows: seq<Row>, cursor: int, limit: nat, answers: Answers): Outcome
    requires limit > 0 && Sorted(rows)
    decreases |DueAfter(rows, cursor)|
  {
    var ids := Selected(rows, cursor, limit);
    var done := Enriched(rows, IdSet(ids), answers);
    if |ids| < limit then Outcome(ids, done, 1)
    else
      BatchShrinksWork(rows, cursor, limit, answers);
      var rest := Chain(done, ids[limit - 1], limit, answers);
      Outcome(ids + rest.visited, rest.rows, 1 + rest.batches)
  }

  lemma BatchShrinksWork(rows: seq<Row>, cursor: int, limit: nat, answers: Answers)
    requires limit > 0 && Sorted(rows) && |Selected(rows, cursor, limit)| == limit
    ensures var ids := Selected(rows, cursor, limit);
      var done := Enriched(rows, IdSet(ids), answers);
      Sorted(done) && DueAfter(done, ids[limit - 1]) == DueAfter(rows, cursor)[limit..]
  {
    var ids := Selected(rows, cursor, limit);
    DueAfterIncreases(rows, cursor);
    forall id | id in IdSet(ids) ensures id <= ids[limit - 1] {
      var i :| 0 <= i < |ids| && ids[i] == id;
      if i < limit - 1 { assert DueAfter(rows, cursor)[i] < DueAfter(rows, cursor)[limit - 1]; }
    }
    DueAfterUpdate(rows, ids[limit - 1], IdSet(ids), answers);
    DueAfterCut(rows, cursor, limit);
  }

  /** A full batch visits the first due ids, and the chain goes on with the others. */
  lemma ChainStep(rows: seq<Row>, cursor: int, limit: nat, answers: Answers) returns (done: seq<Row>, last: int)
    requires limit > 0 && Sorted(rows) && |Selected(rows, cursor, limit)| == limit
    ensures Sorted(done) && DueAfter(done, last) == DueAfter(rows, cursor)[limit..]
    ensures Chain(rows, cursor, limit, answers).visited ==
      DueAfter(rows, cursor)[..limit] + Chain(done, last, limit, answers).visited
    ensures Chain(rows, cursor, limit, answers).batches == Chain(done, last, limit, answers).batches + 1
  {
    var ids := Selected(rows, cursor, limit);
    BatchShrinksWork(rows, cursor, limit, answers);
    done, last := Enriched(rows, IdSet(ids), answers), ids[limit - 1];
  }

  lemma ChainEnds(rows: seq<Row>, cursor: int, limit: nat, answers: Answers)
    requires limit > 0 && Sorted(rows) && |Selected(rows, cursor, limit)| != limit
    ensures |DueAfter(rows, cursor)| < limit
    ensures Chain(rows, cursor, limit, answers).visited == DueAfter(rows, cursor)
    ensures Chain(rows, cursor, limit, answers).batches == 1
  {
  }

  /** A chain of batches visits the due ids past its cursor in order. */
  lemma {:induction false} ChainVisits(rows: seq<Row>, cursor: int, limit: nat, answers: Answers)
    requires limit > 0 && Sorted(rows)
    ensures Chain(rows, cursor, limit, answers).visited == DueAfter(rows, cursor)
    decreases |DueAfter(rows, cursor)|
  {
    hide DueAfter, Chain, Selected;
    if |Selected(rows, cursor, limit)| == limit {
      var done, last := ChainStep(rows, cursor, limit, answers);
      ChainVisits(done, last, limit, answers);
      Rejoined(DueAfter(rows, cursor), limit);
    } else {
      ChainEnds(rows, cursor, limit, answers);
    }
  }

  lemma Rejoined(all: seq<int>, n: nat)
    requires n <= |all|
    ensures all[..n] + all[n..] == all
  {
  }

  /** It stops after one batch more than the number of full ones. */
  lemma {:induction false} ChainBatches(rows: seq<Row>, cursor: int, limit: nat, answers: Answers)
    requires limit > 0 && Sorted(rows)
    ensures Fills(Chain(rows, cursor, limit, answers).batches, limit, |DueAfter(rows, cursor)|)
    decreases |DueAfter(rows, cursor)|
  {
    hide DueAfter, Chain, Selected, Fills;
    if |Selected(rows, cursor, limit)| == limit {
      var done, last := ChainStep(rows, cursor, limit, answers);
      ChainBatches(done, last, limit, answers);
      OneMoreBatch(Chain(done, last, limit, answers).batches, limit, |DueAfter(done, last)|);
    } else {
      ChainEnds(rows, cursor, limit, answers);
      LastBatch(limit, |DueAfter(rows, cursor)|);
    }
  }

  /** b batches of the given size, all full but the last, which is not. */
  predicate Fills(b: int, limit: int, n: int) { (b - 1) * limit <= n < b * limit }

  lemma LastBatch(limit: int, n: int)
    requires 0 <= n < limit
    ensures Fills(1, limit, n)
  {
  }

  lemma OneMoreBatch(b: int, limit: int, n: int)
    requires Fills(b, limit, n)
    ensures Fills(b + 1, limit, n + limit)
  {
    assert (b + 1) * limit == b * limit + limit && b * limit == (b - 1) * limit + limit;
  }

  /** On a fixed set of stale rows the batches started by a kickoff visit each due id exactly once, in
      increasing order. */
  lemma BatchesVisitEachOnce(rows: seq<Row>, limit: nat, answers: Answers, id: int)
    requires limit > 0 && Sorted(rows) && forall i :: 0 <= i < |rows| ==> rows[i].id > 0
    ensures var ids := Chain(rows, 0, limit, answers).visited;
      Increasing(ids) && (id in ids <==> IsDue(rows, id)) && Fills(Chain(rows, 0, limit, answers).batches, limit, |ids|)
  {
    ChainVisits(rows, 0, limit, answers);
    ChainBatches(rows, 0, limit, answers);
    DueAfterIncreases(rows, 0);
    DueAfterIds(rows, 0, id);
  }

  /** Afterwards exactly the visited rows whose query succeeded have changed, and they are no longer due. */
  lemma {:induction false} ChainUpdatesAnswered(rows: seq<Row>, cursor: int, limit: nat, answers: Answers)
    requires limit > 0 && Sorted(rows)
    ensures Chain(rows, cursor, limit, answers).rows == Enriched(rows, IdSet(DueAfter(rows, cursor)), answers)
    decreases |DueAfter(rows, cursor)|
  {
    var ids, all := Selected(rows, cursor, limit), DueAfter(rows, cursor);
    if |ids| == limit {
      var done := Enriched(rows, IdSet(ids), answers);
      BatchShrinksWork(rows, cursor, limit, answers);
      ChainUpdatesAnswered(done, ids[limit - 1], limit, answers);
      EnrichedTwice(rows, IdSet(ids), IdSet(all[limit..]), answers);
      IdSetSplit(all, limit);
    } else {
      assert ids == all;
    }
  }

  lemma IdSetSplit(ids: seq<int>, n: nat)
    requires n <= |ids|
    ensures IdSet(ids) == IdSet(ids[..n]) + IdSet(ids[n..])
  {
    assert ids == ids[..n] + ids[n..];
  }

  lemma EnrichedTwice(rows: seq<Row>, a: set<int>, b: set<int>, answers: Answers)
    ensures Enriched(Enriched(rows, a, answers), b, answers) == Enriched(rows, a + b, answers)
  {
    var r := Enriched(Enriched(rows, a, answers), b, answers);
    assert forall i :: 0 <= i < |rows| ==> r[i] == Updated(rows[i], a + b, answers);
  }
}
