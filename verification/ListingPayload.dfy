/** Splitting a RESO row into columns and merging it back (internal/service/mls/listing_payload.go, and
    the order of the split in internal/service/mls/listing_row.go).

    A JSON object is a map from field names to values; encoding and decoding are inverse and left out. */
module ListingPayload {
  import opened Wrappers
  import opened Shared

  type Json = string
  type Fields = map<string, Json>

  /** An upstream row as the handlers share it: a map that the split extends in place. */
  class ResoRow {
    var fields: Fields

    constructor (upstream: Fields)
      ensures fields == upstream
    {
      fields := upstream;
    }
  }

  /** The navigation columns; None is a column that the row does not fill. */
  datatype Payloads = Payloads(media: Option<Json>, unit: Option<Json>, room: Option<Json>, openHouse: Option<Json>)

  /** The JSON columns of a stored listing. */
  datatype Stored = Stored(raw: Fields, payloads: Payloads, custom: Fields)

  const MEDIA := "Media"
  const UNIT := "Unit"
  const ROOM := "Room"
  const OPEN_HOUSE := "OpenHouse"
  const UNIT_TYPES := "UnitTypes"
  const ROOMS := "Rooms"
  const OPEN_HOUSES := "OpenHouses"

  const DEFAULT_EXPAND := [MEDIA, UNIT, ROOM, OPEN_HOUSE]
  const BRIDGE_ALIASES := [(ROOMS, ROOM), (UNIT_TYPES, UNIT), (OPEN_HOUSES, OPEN_HOUSE)]
  const BRIDGE_NAMES := [ROOMS, UNIT_TYPES, OPEN_HOUSES]

  predicate Canonical(k: string) { k == MEDIA || k == UNIT || k == ROOM || k == OPEN_HOUSE }

  predicate BridgeName(k: string) { k == ROOMS || k == UNIT_TYPES || k == OPEN_HOUSES }

  lemma NamesDiffer()
    ensures forall k :: !(Canonical(k) && BridgeName(k))
    ensures MEDIA != UNIT && MEDIA != ROOM && MEDIA != OPEN_HOUSE && UNIT != ROOM && UNIT != OPEN_HOUSE
    ensures ROOM != OPEN_HOUSE
    ensures ROOMS != UNIT_TYPES && ROOMS != OPEN_HOUSES && UNIT_TYPES != OPEN_HOUSES
  {
    assert UNIT[0] != ROOM[0];
    assert UNIT_TYPES[0] != OPEN_HOUSE[0];
  }

  // ---- Specification: the split ------------------------------------------------------------------

  function Alias(row: Fields, name: string, canonical: string): Fields {
    if name in row && canonical !in row then row[canonical := row[name]] else row
  }

  function Aliased(row: Fields, aliases: seq<(string, string)>): Fields {
    if aliases == [] then row else
      var n := |aliases| - 1;
      Alias(Aliased(row, aliases[..n]), aliases[n].0, aliases[n].1)
  }

  /** The row after NormalizeBridgeExpandKeys; a Spark row stays as it is. */
  function Normalized(row: Fields, provider: Provider): Fields {
    if provider.Bridge? then Aliased(row, BRIDGE_ALIASES) else row
  }

  /** The value of the last expand key that is a or b and that the row has. */
  function LastValue(row: Fields, keys: seq<string>, a: string, b: string): (v: Option<Json>)
    ensures v.None? ==> !(a in keys && a in row) && !(b in keys && b in row)
    ensures v.Some? ==> (a in keys && a in row && v.value == row[a]) || (b in keys && b in row && v.value == row[b])
  {
    if keys == [] then None else
      var n := |keys| - 1;
      if (keys[n] == a || keys[n] == b) && keys[n] in row then Some(row[keys[n]]) else LastValue(row, keys[..n], a, b)
  }

  function Expanded(row: Fields, keys: seq<string>): Payloads {
    Payloads(LastValue(row, keys, MEDIA, MEDIA), LastValue(row, keys, UNIT, UNIT_TYPES),
             LastValue(row, keys, ROOM, ROOMS), LastValue(row, keys, OPEN_HOUSE, OPEN_HOUSES))
  }

  function OrField(v: Option<Json>, row: Fields, name: string): Option<Json> {
    if v.None? && name in row then Some(row[name]) else v
  }

  function Extracted(row: Fields, provider: Provider, keys: seq<string>): Payloads {
    var p := Expanded(row, keys);
    if provider.Spark? then p else
      Payloads(p.media, OrField(p.unit, row, UNIT_TYPES), OrField(p.room, row, ROOMS),
        OrField(p.openHouse, row, OPEN_HOUSES))
  }

  function StripKeys(provider: Provider, keys: seq<string>): seq<string> {
    if provider.Bridge? then keys + BRIDGE_NAMES else keys
  }

  function Without(row: Fields, keys: seq<string>): Fields {
    map k | k in row && k !in keys :: row[k]
  }

  const ODATA := "@odata"

  predicate IsCustom(k: string, strip: seq<string>, mapped: set<string>) {
    !(ODATA <= k) && k !in mapped && k !in strip
  }

  function CustomFields(row: Fields, strip: seq<string>, mapped: set<string>): Fields {
    map k | k in row && IsCustom(k, strip, mapped) :: row[k]
  }

  /** What BuildListingRecord stores for a row: raw data from the row as received, custom fields from the
      row as the extraction left it. */
  function Split(row: Fields, provider: Provider, keys: seq<string>, mapped: set<string>): Stored {
    var expand := if keys == [] then DEFAULT_EXPAND else keys;
    var grown, strip := Normalized(row, provider), StripKeys(provider, expand);
    Stored(Without(row, strip), Extracted(grown, provider, expand), CustomFields(grown, strip, mapped))
  }

  // ---- Specification: the merge ------------------------------------------------------------------

  function Attached(root: Fields, key: string, v: Option<Json>): Fields {
    if v.Some? then root[key := v.value] else root
  }

  function WithPayloads(raw: Fields, p: Payloads): Fields {
    Attached(Attached(Attached(Attached(raw, MEDIA, p.media), UNIT, p.unit), ROOM, p.room), OPEN_HOUSE, p.openHouse)
  }

  function FilledIn(root: Fields, custom: Fields): Fields {
    map k | k in root.Keys + custom.Keys :: if k in root then root[k] else custom[k]
  }

  function Merged(s: Stored): Fields {
    FilledIn(WithPayloads(s.raw, s.payloads), s.custom)
  }

  // ---- The code ----------------------------------------------------------------------------------

  method NormalizeBridgeExpandKeys(row: ResoRow)
    modifies row
    ensures row.fields == Normalized(old(row.fields), Bridge)
  {
    var i := 0;
    while i < |BRIDGE_ALIASES|
      invariant i <= |BRIDGE_ALIASES|
      invariant row.fields == Aliased(old(row.fields), BRIDGE_ALIASES[..i])
    {
      var (name, canonical) := BRIDGE_ALIASES[i];
      assert BRIDGE_ALIASES[..i + 1][..i] == BRIDGE_ALIASES[..i];
      if name in row.fields {
        if canonical !in row.fields {
          row.fields := row.fields[canonical := row.fields[name]];
        }
      }
      i := i + 1;
    }
    assert BRIDGE_ALIASES[..i] == BRIDGE_ALIASES;
  }

  method ExtractExpandedPayloads(row: ResoRow, provider: Provider, keys: seq<string>) returns (p: Payloads)
    modifies row
    ensures row.fields == Normalized(old(row.fields), provider)
    ensures p == Extracted(row.fields, provider, keys)
  {
    if provider.Bridge? {
      NormalizeBridgeExpandKeys(row);
    }
    p := Payloads(None, None, None, None);
    NamesDiffer();
    for i := 0 to |keys|
      invariant p == Expanded(row.fields, keys[..i])
    {
      var key := keys[i];
      assert keys[..i + 1][..i] == keys[..i];
      if key in row.fields {
        var val := Some(row.fields[key]);
        if key == MEDIA {
          p := p.(media := val);
        } else if key == UNIT || key == UNIT_TYPES {
          p := p.(unit := val);
        } else if key == ROOM || key == ROOMS {
          p := p.(room := val);
        } else if key == OPEN_HOUSE || key == OPEN_HOUSES {
          p := p.(openHouse := val);
        }
      }
    }
    assert keys[..|keys|] == keys;
    if provider.Bridge? {
      if p.room.None? && ROOMS in row.fields {
        p := p.(room := Some(row.fields[ROOMS]));
      }
      if p.unit.None? && UNIT_TYPES in row.fields {
        p := p.(unit := Some(row.fields[UNIT_TYPES]));
      }
      if p.openHouse.None? && OPEN_HOUSES in row.fields {
        p := p.(openHouse := Some(row.fields[OPEN_HOUSES]));
      }
    }
  }

  method StripJSONBKeysFromRaw(raw: Fields, keys: seq<string>) returns (m: Fields)
    ensures m == Without(raw, keys)
  {
    m := raw;
    for i := 0 to |keys|
      invariant m == Without(raw, keys[..i])
    {
      m := m - {keys[i]};
    }
    assert keys[..|keys|] == keys;
  }

  method BuildCustomFields(row: ResoRow, provider: Provider, keys: seq<string>, mapped: set<string>)
    returns (custom: Fields)
    ensures custom == CustomFields(row.fields, StripKeys(provider, keys), mapped)
  {
    var strip := StripKeys(provider, keys);
    custom := map[];
    var todo := row.fields.Keys;
    while todo != {}
      invariant todo <= row.fields.Keys
      invariant custom == map k | k in row.fields && k !in todo && IsCustom(k, strip, mapped) :: row.fields[k]
    {
      var k :| k in todo;
      if IsCustom(k, strip, mapped) {
        custom := custom[k := row.fields[k]];
      }
      todo := todo - {k};
    }
  }

  datatype RowAction = SkipRow | DeleteRow | UpsertRow(stored: Stored)

  /** BuildListingRecord: what happens to a row, and the split in its order. raw is the row's own text,
      decoded separately; the key, the trimmed lower-case status and whether a price was found are inputs. */
  method BuildListingRecord(row: ResoRow, raw: Fields, listingKey: string, status: string, hasPrice: bool,
                            provider: Provider, keys: seq<string>, mapped: set<string>) returns (action: RowAction)
    requires raw == row.fields
    modifies row
    ensures action.SkipRow? <==> listingKey == "" || ((status == "active" || status == "pending") && !hasPrice)
    ensures action.DeleteRow? <==> listingKey != "" && status != "active" && status != "pending"
    ensures action.UpsertRow? ==> action.stored == Split(old(row.fields), provider, keys, mapped)
    ensures row.fields ==
      if listingKey == "" || action.DeleteRow? then old(row.fields) else Normalized(old(row.fields), provider)
  {
    if listingKey == "" {
      return SkipRow;
    }
    if status != "active" && status != "pending" {
      return DeleteRow;
    }
    var expand := if keys == [] then DEFAULT_EXPAND else keys;
    var payloads := ExtractExpandedPayloads(row, provider, expand);
    var stored := StripJSONBKeysFromRaw(raw, StripKeys(provider, expand));
    var custom := BuildCustomFields(row, provider, expand, mapped);
    if !hasPrice {
      return SkipRow;
    }
    action := UpsertRow(Stored(stored, payloads, custom));
  }

  method FlatMergeCustomFields(root: Fields, custom: Fields) returns (merged: Fields)
    ensures merged == FilledIn(root, custom)
  {
    merged := root;
    var todo := custom.Keys;
    while todo != {}
      invariant todo <= custom.Keys
      invariant merged == map k | k in root.Keys + (custom.Keys - todo) :: if k in root then root[k] else custom[k]
    {
      var k :| k in todo;
      if k !in merged {
        merged := merged[k := custom[k]];
      }
      todo := todo - {k};
    }
  }

  method MergeMirrorListing(s: Stored) returns (merged: Fields)
    ensures merged == Merged(s)
  {
    var root := s.raw;
    if s.payloads.media.Some? { root := root[MEDIA := s.payloads.media.value]; }
    if s.payloads.unit.Some? { root := root[UNIT := s.payloads.unit.value]; }
    if s.payloads.room.Some? { root := root[ROOM := s.payloads.room.value]; }
    if s.payloads.openHouse.Some? { root := root[OPEN_HOUSE := s.payloads.openHouse.value]; }
    merged := FlatMergeCustomFields(root, s.custom);
  }

  // ---- Round trips -------------------------------------------------------------------------------

  function Find(row: Fields, k: string): Option<Json> {
    if k in row then Some(row[k]) else None
  }

  lemma FindDecides(a: Fields, b: Fields)
    requires forall k :: Find(a, k) == Find(b, k)
    ensures a == b
  {
    forall k ensures (k in a <==> k in b) && (k in a ==> a[k] == b[k]) {
      assert Find(a, k) == Find(b, k);
    }
  }

  /** What the payload columns say of a field. */
  function PayloadAt(p: Payloads, k: string): Option<Json> {
    if k == MEDIA then p.media else if k == UNIT then p.unit else if k == ROOM then p.room
    else if k == OPEN_HOUSE then p.openHouse else None
  }

  lemma FindMerged(s: Stored, k: string)
    ensures Find(Merged(s), k) ==
      if PayloadAt(s.payloads, k).Some? then PayloadAt(s.payloads, k)
      else if k in s.raw then Some(s.raw[k]) else Find(s.custom, k)
  {
    NamesDiffer();
  }

  /** An alias adds the canonical name and nothing else. */
  lemma NormalizedFind(row: Fields, k: string)
    ensures Find(Normalized(row, Bridge), k) ==
      if k in row then Some(row[k])
      else if k == ROOM then Find(row, ROOMS) else if k == UNIT then Find(row, UNIT_TYPES)
      else if k == OPEN_HOUSE then Find(row, OPEN_HOUSES) else None
  {
    NamesDiffer();
    var a := BRIDGE_ALIASES;
    assert a[..3] == a && a[..3][..2] == a[..2] && a[..2][..1] == a[..1] && a[..1][..0] == [];
    assert Aliased(row, a[..0]) == row;
    assert Aliased(row, a[..1]) == Alias(row, ROOMS, ROOM);
    assert Aliased(row, a[..2]) == Alias(Alias(row, ROOMS, ROOM), UNIT_TYPES, UNIT);
    assert Aliased(row, a[..3]) == Alias(Alias(Alias(row, ROOMS, ROOM), UNIT_TYPES, UNIT), OPEN_HOUSES, OPEN_HOUSE);
  }

  function ExpandOrDefault(keys: seq<string>): seq<string> {
    if keys == [] then DEFAULT_EXPAND else keys
  }

  lemma {:induction false} LastValueAt(row: Fields, keys: seq<string>, a: string, b: string)
    requires b !in keys || b !in row || a == b
    ensures LastValue(row, keys, a, b) == if a in keys && a in row then Some(row[a]) else None
  {
    if keys != [] {
      var n := |keys| - 1;
      assert keys == keys[..n] + [keys[n]];
      LastValueAt(row, keys[..n], a, b);
    }
  }

  /** Custom fields add nothing: every one of them is already in the raw data or in a navigation column. */
  lemma CustomFieldsAddNothing(row: Fields, provider: Provider, keys: seq<string>, mapped: set<string>)
    ensures var s := Split(row, provider, keys, mapped); Merged(s) == WithPayloads(s.raw, s.payloads)
  {
    var s, expand := Split(row, provider, keys, mapped), ExpandOrDefault(keys);
    forall k ensures Find(Merged(s), k) == Find(WithPayloads(s.raw, s.payloads), k) {
      if k in s.custom {
        CustomIsStored(row, provider, expand, mapped, k);
      }
    }
    FindDecides(Merged(s), WithPayloads(s.raw, s.payloads));
  }

  lemma CustomIsStored(row: Fields, provider: Provider, expand: seq<string>, mapped: set<string>, k: string)
    requires expand != [] && k in Split(row, provider, expand, mapped).custom
    ensures var s := Split(row, provider, expand, mapped); k in s.raw || PayloadAt(s.payloads, k).Some?
  {
    NamesDiffer();
    var grown := Normalized(row, provider);
    if k !in row {
      NormalizedFind(row, k);
      assert Find(grown, k).Some?;
      assert k == ROOM ==> ROOMS in row;
      NormalizedFind(row, ROOMS);
      NormalizedFind(row, UNIT_TYPES);
      NormalizedFind(row, OPEN_HOUSES);
    }
  }

  /** A Spark row survives the split and the merge exactly when each expand key that it has is one of the
      four navigation columns. */
  lemma SparkRoundTrip(row: Fields, keys: seq<string>, mapped: set<string>)
    ensures Merged(Split(row, Spark, keys, mapped)) == row <==>
      forall k :: k in ExpandOrDefault(keys) && k in row ==> Canonical(k)
  {
    var s, expand := Split(row, Spark, keys, mapped), ExpandOrDefault(keys);
    if k :| k in expand && k in row && !Canonical(k) {
      FindMerged(s, k);
      assert Find(Merged(s), k) != Find(row, k);
    } else {
      forall k ensures Find(Merged(s), k) == Find(row, k) {
        SparkField(row, expand, mapped, k);
      }
      FindDecides(Merged(s), row);
    }
  }

  lemma SparkField(row: Fields, expand: seq<string>, mapped: set<string>, k: string)
    requires expand != [] && forall k :: k in expand && k in row ==> Canonical(k)
    ensures Find(Merged(Split(row, Spark, expand, mapped)), k) == Find(row, k)
  {
    NamesDiffer();
    assert forall b :: BridgeName(b) ==> b !in expand || b !in row;
    LastValueAt(row, expand, MEDIA, MEDIA);
    LastValueAt(row, expand, UNIT, UNIT_TYPES);
    LastValueAt(row, expand, ROOM, ROOMS);
    LastValueAt(row, expand, OPEN_HOUSE, OPEN_HOUSES);
    FindMerged(Split(row, Spark, expand, mapped), k);
  }

  function CanonicalName(k: string): string {
    if k == ROOMS then ROOM else if k == UNIT_TYPES then UNIT else if k == OPEN_HOUSES then OPEN_HOUSE else k
  }

  /** Bridge's name for a navigation column. */
  function Spelling(canonical: string): string {
    if canonical == ROOM then ROOMS else if canonical == UNIT then UNIT_TYPES else OPEN_HOUSES
  }

  /** The value of a column that Bridge has a name of its own for: a row with one spelling gives that field; of
      two, the one that comes last in the expand list, or Bridge's own if neither does. */
  function ColumnValue(row: Fields, expand: seq<string>, k: string): Option<Json> {
    var name := Spelling(k);
    if k in row && name in row then OrField(LastValue(row, expand, k, name), row, name)
    else if name in row then Some(row[name]) else Find(row, k)
  }

  /** What a field of a Bridge row becomes. */
  function Returned(row: Fields, expand: seq<string>, k: string): Option<Json> {
    if BridgeName(k) then None
    else if Canonical(k) && k != MEDIA then ColumnValue(row, expand, k)
    else if k in expand && k != MEDIA then None else Find(row, k)
  }

  lemma {:induction false} SameLastValue(row: Fields, grown: Fields, keys: seq<string>, a: string, b: string)
    requires Find(row, a) == Find(grown, a) && Find(row, b) == Find(grown, b)
    ensures LastValue(row, keys, a, b) == LastValue(grown, keys, a, b)
  {
    if keys != [] { SameLastValue(row, grown, keys[..|keys| - 1], a, b); }
  }

  /** One navigation column of a Bridge row, whichever spelling the row and the expand list use. */
  lemma BridgeColumn(row: Fields, expand: seq<string>, k: string)
    requires Canonical(k) && k != MEDIA
    ensures var grown, name := Normalized(row, Bridge), Spelling(k);
      var column := OrField(LastValue(grown, expand, k, name), grown, name);
      column == ColumnValue(row, expand, k) || (column == None && k !in expand && name !in row)
  {
    NamesDiffer();
    var grown, name := Normalized(row, Bridge), Spelling(k);
    NormalizedFind(row, name);
    NormalizedFind(row, k);
    if name !in row {
      LastValueAt(grown, expand, k, name);
    } else if k in row {
      SameLastValue(row, grown, expand, k, name);
    }
  }

  lemma BridgePayload(row: Fields, expand: seq<string>, k: string)
    ensures var column := PayloadAt(Extracted(Normalized(row, Bridge), Bridge, expand), k);
      if !Canonical(k) then column == None
      else if k == MEDIA then column == if k in expand then Find(row, k) else None
      else column == ColumnValue(row, expand, k) || (column == None && k !in expand && Spelling(k) !in row)
  {
    NamesDiffer();
    if k == MEDIA {
      LastValueAt(Normalized(row, Bridge), expand, MEDIA, MEDIA);
      NormalizedFind(row, MEDIA);
    } else if Canonical(k) {
      BridgeColumn(row, expand, k);
    }
  }

  /** Field by field, what comes back of a Bridge row. */
  lemma BridgeField(row: Fields, keys: seq<string>, mapped: set<string>, k: string)
    ensures Find(Merged(Split(row, Bridge, keys, mapped)), k) == Returned(row, ExpandOrDefault(keys), k)
  {
    var expand := ExpandOrDefault(keys);
    BridgePayload(row, expand, k);
    FindMerged(Split(row, Bridge, keys, mapped), k);
    NormalizedFind(row, k);
    NamesDiffer();
    assert BridgeName(k) <==> k in BRIDGE_NAMES;
  }

  predicate Agree(row: Fields, a: string, b: string) { a in row && b in row ==> row[a] == row[b] }

  /** Where a field comes in both spellings, they have one value. */
  predicate SpellingsAgree(row: Fields) {
    Agree(row, ROOMS, ROOM) && Agree(row, UNIT_TYPES, UNIT) && Agree(row, OPEN_HOUSES, OPEN_HOUSE)
  }

  /** Every field of the row is there under its canonical name, and nothing else is. */
  ghost predicate ComesBack(row: Fields, merged: Fields) {
    && (forall k :: k in row ==> Find(merged, CanonicalName(k)) == Some(row[k]))
    && (forall k :: k in merged ==> exists j :: j in row && CanonicalName(j) == k)
  }

  /** A Bridge row comes back renamed, and otherwise unchanged, exactly when its double spellings agree and each
      expand key that it has is one of the seven navigation names. */
  lemma BridgeRoundTrip(row: Fields, keys: seq<string>, mapped: set<string>)
    ensures ComesBack(row, Merged(Split(row, Bridge, keys, mapped))) <==>
      SpellingsAgree(row) && forall k :: k in ExpandOrDefault(keys) && k in row ==> Canonical(k) || BridgeName(k)
  {
    var merged, expand := Merged(Split(row, Bridge, keys, mapped)), ExpandOrDefault(keys);
    if ComesBack(row, merged) {
      BackMeansAgreed(row, keys, mapped);
    }
    if SpellingsAgree(row) && forall k :: k in expand && k in row ==> Canonical(k) || BridgeName(k) {
      forall k | k in row ensures Find(merged, CanonicalName(k)) == Some(row[k]) {
        BridgeField(row, keys, mapped, CanonicalName(k));
        FieldReturns(row, expand, k);
      }
      forall k | k in merged ensures exists j :: j in row && CanonicalName(j) == k {
        BridgeField(row, keys, mapped, k);
        ReturnedIsField(row, expand, k);
      }
    }
  }

  lemma FieldReturns(row: Fields, expand: seq<string>, k: string)
    requires SpellingsAgree(row) && k in row && (k in expand ==> Canonical(k) || BridgeName(k))
    ensures Returned(row, expand, CanonicalName(k)) == Some(row[k])
  {
    NamesDiffer();
  }

  lemma ReturnedIsField(row: Fields, expand: seq<string>, k: string)
    requires Returned(row, expand, k).Some?
    ensures exists j :: j in row && CanonicalName(j) == k
  {
    NamesDiffer();
    assert k in row ==> CanonicalName(k) == k;
    assert Canonical(k) && k != MEDIA ==> CanonicalName(Spelling(k)) == k;
  }

  lemma BackMeansAgreed(row: Fields, keys: seq<string>, mapped: set<string>)
    requires ComesBack(row, Merged(Split(row, Bridge, keys, mapped)))
    ensures SpellingsAgree(row) && forall k :: k in ExpandOrDefault(keys) && k in row ==> Canonical(k) || BridgeName(k)
  {
    NamesDiffer();
    assert CanonicalName(ROOMS) == CanonicalName(ROOM) && CanonicalName(UNIT_TYPES) == CanonicalName(UNIT);
    assert CanonicalName(OPEN_HOUSES) == CanonicalName(OPEN_HOUSE);
    forall k | k in ExpandOrDefault(keys) && k in row ensures Canonical(k) || BridgeName(k) {
      BridgeField(row, keys, mapped, k);
      assert !BridgeName(k) ==> CanonicalName(k) == k;
    }
  }

  /** The provider's own names never come back. Their value does, unless the row has the canonical name too: then
      it is the one that comes last in the expand list, or the provider's if neither does. */
  lemma BridgeNamesAreDropped(row: Fields, keys: seq<string>, mapped: set<string>, name: string)
    requires BridgeName(name) && name in row
    ensures var merged, k := Merged(Split(row, Bridge, keys, mapped)), CanonicalName(name);
      && name !in merged && k in merged
      && Some(merged[k]) ==
         if k in row then OrField(LastValue(row, ExpandOrDefault(keys), k, name), row, name) else Some(row[name])
  {
    NamesDiffer();
    BridgeField(row, keys, mapped, name);
    BridgeField(row, keys, mapped, CanonicalName(name));
    assert Spelling(CanonicalName(name)) == name;
  }
}
