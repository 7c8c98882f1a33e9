/**
 * The column set of the CSV exporter (lib/exporters/csv_exporter.py): every
 * record contributes the names of its sections' fields, the satellite list
 * contributes fixed count and statistic columns plus three per constellation,
 * and the batch's columns are the sorted union of all of them.
 */
module CsvColumns {
  import opened Common
  import opened Json
  import opened Text
  import opened Ordering

  // ---------------------------------------------------------------------------
  // Records the exporter can read without raising.
  // ---------------------------------------------------------------------------

  /** A satellite entry: a dict whose constellation, when present, is text (`.lower()` is applied to it). */
  predicate SatelliteOk(v: Value)
  {
    v.Obj? && match Get(v.fields, "constellation") case None => true case Some(c) => c.Str?
  }

  predicate SatellitesOk(sats: seq<Value>)
  {
    forall i :: 0 <= i < |sats| ==> SatelliteOk(sats[i])
  }

  /** `slot.get("configuration", {})`. */
  function Configuration(slot: Fields): Value
  {
    GetOr(slot, "configuration", Obj([]))
  }

  /** The slot number is an int or a text, so that the f-string renders it as the model does. */
  predicate NumberOk(slot: Fields)
  {
    match Get(slot, "slot_number") case None => true case Some(n) => n.Int? || n.Str?
  }

  /** `f"{slot.get('slot_number', 0)}"` for the numbers `NumberOk` admits. */
  function SlotNumber(slot: Fields): string
  {
    var n: Option<Value> := Get(slot, "slot_number");
    if n.None? then "0"
    else if n.value.Int? then IntToString(n.value.i)
    else if n.value.Str? then n.value.s
    else ""
  }

  /** A slot entry: a dict whose configuration is empty (skipped) or a dict. */
  predicate SlotOk(v: Value)
  {
    v.Obj? && (!Truthy(Configuration(v.fields)) || (Configuration(v.fields).Obj? && NumberOk(v.fields)))
  }

  predicate SlotsOk(slots: seq<Value>)
  {
    forall i :: 0 <= i < |slots| ==> SlotOk(slots[i])
  }

  /** A dict entry the exporter expands into slot columns: a list under the key "slots". */
  predicate SlotsEntry(k: string, x: Value)
  {
    k == "slots" && x.Arr?
  }

  predicate DictOk(f: Fields)
  {
    forall j :: 0 <= j < |f| ==> SlotsEntry(f[j].0, f[j].1) ==> SlotsOk(f[j].1.items)
  }

  predicate SectionOk(name: string, v: Value)
  {
    if name == "satellites" then v.Arr? && SatellitesOk(v.items)
    else name == "raw_data" || !v.Obj? || DictOk(v.fields)
  }

  predicate RecordOk(d: Fields)
  {
    forall i :: 0 <= i < |d| ==> SectionOk(d[i].0, d[i].1)
  }

  predicate RecordsOk(records: seq<Fields>)
  {
    forall i :: 0 <= i < |records| ==> RecordOk(records[i])
  }

  // ---------------------------------------------------------------------------
  // Satellite columns.
  // ---------------------------------------------------------------------------

  /**
   * `sat.get("constellation", "unknown").lower()`. A constellation that is not
   * text makes `.lower()` raise; `SatelliteOk` rules that case out, and the
   * value given for it here is never used.
   */
  function ConstellationOf(sat: Value): string
  {
    var c: Option<Value> := if sat.Obj? then Get(sat.fields, "constellation") else None;
    if c.Some? && c.value.Str? then Lower(c.value.s) else "unknown"
  }

  /** The three column names of the overall counts. */
  datatype CountNames = CountNames(total: string, used: string, unused: string)

  const CountKeys := CountNames("satellites_total_count", "satellites_used_count", "satellites_unused_count")

  const CountColumns: set<string> := {CountKeys.total, CountKeys.used, CountKeys.unused}

  /** The four column names of one kind of reading's statistics. */
  datatype StatNames = StatNames(min: string, max: string, avg: string, median: string)

  const SnrNames := StatNames("satellites_snr_min", "satellites_snr_max", "satellites_snr_avg", "satellites_snr_median")

  const ElevationNames := StatNames("satellites_elevation_min", "satellites_elevation_max",
                                    "satellites_elevation_avg", "satellites_elevation_median")

  function NameSet(names: StatNames): set<string>
  {
    {names.min, names.max, names.avg, names.median}
  }

  const StatColumns: set<string> := NameSet(SnrNames) + NameSet(ElevationNames)

  /** `satellites_<c>_total`, `satellites_<c>_used` and `satellites_<c>_unused`. */
  function TotalKey(c: string): string { "satellites_" + c + "_total" }
  function UsedKey(c: string): string { "satellites_" + c + "_used" }
  function UnusedKey(c: string): string { "satellites_" + c + "_unused" }

  function ConstellationColumns(c: string): set<string>
  {
    {TotalKey(c), UsedKey(c), UnusedKey(c)}
  }

  /** The union of `f(e)` over the entries `e` of `s`: what a loop of `set.update` calls builds. */
  function Union<T>(s: seq<T>, f: T -> set<string>): set<string>
  {
    if |s| == 0 then {} else Union(s[..|s| - 1], f) + f(s[|s| - 1])
  }

  lemma UnionStep<T>(s: seq<T>, f: T -> set<string>, i: nat)
    requires i < |s|
    ensures Union(s[..i + 1], f) == Union(s[..i], f) + f(s[i])
  {
    assert s[..i + 1][..i] == s[..i];
  }

  lemma UnionSingle<T>(x: T, f: T -> set<string>, k: string)
    requires k in f(x)
    ensures k in Union([x], f)
  {
    assert [x][..0] == [];
  }

  lemma {:induction false} UnionMembers<T>(s: seq<T>, f: T -> set<string>, x: string)
    ensures x in Union(s, f) <==> exists i :: 0 <= i < |s| && x in f(s[i])
  {
    if |s| > 0 {
      var n := |s| - 1;
      var init := s[..n];
      UnionMembers(init, f, x);
      if x in Union(s, f) {
        if x in Union(init, f) {
          var i :| 0 <= i < |init| && x in f(init[i]);
          assert s[i] == init[i];
        } else {
          assert x in f(s[n]);
        }
      } else {
        forall i | 0 <= i < |s|
          ensures x !in f(s[i])
        {
          if i < n {
            assert init[i] == s[i];
          }
        }
      }
    }
  }

  function ConstellationSet(sat: Value): set<string>
  {
    {ConstellationOf(sat)}
  }

  /** The distinct constellations of a satellite list. */
  function Constellations(sats: seq<Value>): set<string>
  {
    Union(sats, ConstellationSet)
  }

  /** The three columns of every constellation in `cs`. */
  function Spread(cs: set<string>): set<string>
  {
    set c, x | c in cs && x in ConstellationColumns(c) :: x
  }

  function SatelliteColumns(sats: seq<Value>): set<string>
  {
    CountColumns + Spread(Constellations(sats)) + StatColumns
  }

  lemma SpreadAdd(cs: set<string>, c: string)
    ensures Spread(cs + {c}) == Spread(cs) + ConstellationColumns(c)
  {
  }

  /**
   * The satellite columns are the three counts, the eight statistics, and three
   * columns per distinct constellation; how many satellites there are does not
   * matter, and an empty list still has the eleven fixed columns.
   */
  lemma SatelliteColumnsMembers(sats: seq<Value>, x: string)
    ensures x in SatelliteColumns(sats) <==>
      x in CountColumns || x in StatColumns ||
      exists i :: 0 <= i < |sats| && x in ConstellationColumns(ConstellationOf(sats[i]))
  {
    if x in Spread(Constellations(sats)) {
      var c :| c in Constellations(sats) && x in ConstellationColumns(c);
      UnionMembers(sats, ConstellationSet, c);
    }
    if exists i :: 0 <= i < |sats| && x in ConstellationColumns(ConstellationOf(sats[i])) {
      var i :| 0 <= i < |sats| && x in ConstellationColumns(ConstellationOf(sats[i]));
      UnionMembers(sats, ConstellationSet, ConstellationOf(sats[i]));
    }
  }

  /** `_get_satellite_column_names`: one loop collects the constellations, a second adds their columns. */
  method GetSatelliteColumnNames(sats: seq<Value>) returns (columns: set<string>)
    requires SatellitesOk(sats)
    ensures columns == SatelliteColumns(sats)
  {
    columns := CountColumns;
    var constellations: set<string> := {};
    for i := 0 to |sats|
      invariant constellations == Union(sats[..i], ConstellationSet)
    {
      UnionStep(sats, ConstellationSet, i);
      constellations := constellations + {ConstellationOf(sats[i])};
    }
    assert sats[..|sats|] == sats;
    var rest := constellations;
    while rest != {}
      invariant rest <= constellations
      invariant columns == CountColumns + Spread(constellations - rest)
      decreases |rest|
    {
      var c :| c in rest;
      SpreadAdd(constellations - rest, c);
      assert (constellations - rest) + {c} == constellations - (rest - {c});
      columns := columns + ConstellationColumns(c);
      rest := rest - {c};
    }
    assert constellations - rest == constellations;
    columns := columns + StatColumns;
  }

  // ---------------------------------------------------------------------------
  // Slot columns.
  // ---------------------------------------------------------------------------

  function PrefixedKey(pre: string): ((string, Value)) -> set<string>
  {
    (e: (string, Value)) => {pre + e.0}
  }

  /** `pre + key` for every key of `f`. */
  function PrefixedKeys(pre: string, f: Fields): set<string>
  {
    Union(f, PrefixedKey(pre))
  }

  lemma PrefixedKeysMembers(pre: string, f: Fields, x: string)
    ensures x in PrefixedKeys(pre, f) <==> exists j :: 0 <= j < |f| && x == pre + f[j].0
  {
    UnionMembers(f, PrefixedKey(pre), x);
  }

  /** The prefix of one slot's configuration columns: `{parent}_slot{n}_`. */
  function SlotPrefix(parent: string, slot: Fields): string
  {
    parent + "_slot" + SlotNumber(slot) + "_"
  }

  /**
   * The configuration columns of one slot; none when its configuration is empty.
   * (A slot or configuration that is not a dict makes Python raise; `SlotOk`
   * rules that out.)
   */
  function SlotKeyColumns(parent: string, slot: Value): set<string>
  {
    if !slot.Obj? || !Truthy(Configuration(slot.fields)) || !Configuration(slot.fields).Obj? then {}
    else PrefixedKeys(SlotPrefix(parent, slot.fields), Configuration(slot.fields).fields)
  }

  function SlotKeysFor(parent: string): Value -> set<string>
  {
    slot => SlotKeyColumns(parent, slot)
  }

  /** `_extract_slots_column_names`: the count column and every slot's configuration columns. */
  function SlotColumns(parent: string, slots: seq<Value>): set<string>
  {
    {parent + "_slots_count"} + Union(slots, SlotKeysFor(parent))
  }

  /** A slot whose configuration is empty adds no column. */
  lemma SlotColumnsEmptyConfig(parent: string, slots: seq<Value>, slot: Value)
    requires slot.Obj? && !Truthy(Configuration(slot.fields))
    ensures SlotColumns(parent, slots + [slot]) == SlotColumns(parent, slots)
  {
    assert (slots + [slot])[..|slots|] == slots;
  }

  /** A dict slot with a non-empty dict configuration: the one kind that adds columns. */
  predicate Configured(slot: Value)
  {
    slot.Obj? && Truthy(Configuration(slot.fields)) && Configuration(slot.fields).Obj?
  }

  /**
   * The slot columns: always `{parent}_slots_count`, and `{parent}_slot{n}_{key}`
   * exactly for the keys of slots whose configuration is not empty.
   */
  lemma SlotColumnsMembers(parent: string, slots: seq<Value>, x: string)
    ensures parent + "_slots_count" in SlotColumns(parent, slots)
    ensures x in SlotColumns(parent, slots) <==>
      x == parent + "_slots_count" ||
      exists i, j :: 0 <= i < |slots| && Configured(slots[i]) &&
        0 <= j < |Configuration(slots[i].fields).fields| &&
        x == SlotPrefix(parent, slots[i].fields) + Configuration(slots[i].fields).fields[j].0
  {
    UnionMembers(slots, SlotKeysFor(parent), x);
    if x in Union(slots, SlotKeysFor(parent)) {
      var i :| 0 <= i < |slots| && x in SlotKeyColumns(parent, slots[i]);
      PrefixedKeysMembers(SlotPrefix(parent, slots[i].fields), Configuration(slots[i].fields).fields, x);
    }
    if exists i, j :: 0 <= i < |slots| && Configured(slots[i]) &&
        0 <= j < |Configuration(slots[i].fields).fields| &&
        x == SlotPrefix(parent, slots[i].fields) + Configuration(slots[i].fields).fields[j].0 {
      var i, j :| 0 <= i < |slots| && Configured(slots[i]) &&
        0 <= j < |Configuration(slots[i].fields).fields| &&
        x == SlotPrefix(parent, slots[i].fields) + Configuration(slots[i].fields).fields[j].0;
      PrefixedKeysMembers(SlotPrefix(parent, slots[i].fields), Configuration(slots[i].fields).fields, x);
    }
  }

  /** Adds `pre + key` for every key of `f` to `columns`. */
  method AddPrefixedKeys(columns: set<string>, pre: string, f: Fields) returns (r: set<string>)
    ensures r == columns + PrefixedKeys(pre, f)
  {
    r := columns;
    for j := 0 to |f|
      invariant r == columns + Union(f[..j], PrefixedKey(pre))
    {
      UnionStep(f, PrefixedKey(pre), j);
      r := r + {pre + f[j].0};
    }
    assert f[..|f|] == f;
  }

  /** `_extract_slots_column_names`. */
  method ExtractSlotsColumnNames(slots: seq<Value>, parent: string) returns (columns: set<string>)
    requires SlotsOk(slots)
    ensures columns == SlotColumns(parent, slots)
  {
    columns := {parent + "_slots_count"};
    for i := 0 to |slots|
      invariant columns == {parent + "_slots_count"} + Union(slots[..i], SlotKeysFor(parent))
    {
      UnionStep(slots, SlotKeysFor(parent), i);
      var configuration := Configuration(slots[i].fields);
      if Truthy(configuration) {
        columns := AddPrefixedKeys(columns, SlotPrefix(parent, slots[i].fields), configuration.fields);
      }
    }
    assert slots[..|slots|] == slots;
  }

  // ---------------------------------------------------------------------------
  // Record and batch columns.
  // ---------------------------------------------------------------------------

  /** The columns of one entry of a dict section. */
  function EntryColumns(name: string, k: string, x: Value): set<string>
  {
    if SlotsEntry(k, x) then SlotColumns(name, x.items) else {name + "_" + k}
  }

  function EntryColumnsFor(name: string): ((string, Value)) -> set<string>
  {
    (e: (string, Value)) => EntryColumns(name, e.0, e.1)
  }

  /** The columns one section of a record contributes. */
  function SectionColumns(section: (string, Value)): set<string>
  {
    var (name, v) := section;
    if name == "satellites" then (if v.Arr? then SatelliteColumns(v.items) else {})
    else if name == "raw_data" then (if v.Obj? then PrefixedKeys("raw_", v.fields) else {})
    else if v.Obj? then Union(v.fields, EntryColumnsFor(name))
    else {name}
  }

  /** `_extract_column_names_from_ap_data`: the union of the sections' columns. */
  function ColumnsOf(d: Fields): set<string>
  {
    Union(d, SectionColumns)
  }

  /** The union of every record's columns. */
  function ColumnUnion(records: seq<Fields>): set<string>
  {
    Union(records, ColumnsOf)
  }

  /** A name is a batch column exactly when some section of some record contributes it. */
  lemma ColumnUnionMembers(records: seq<Fields>, x: string)
    ensures x in ColumnUnion(records) <==>
      exists i, j :: 0 <= i < |records| && 0 <= j < |records[i]| && x in SectionColumns(records[i][j])
  {
    UnionMembers(records, ColumnsOf, x);
    if x in ColumnUnion(records) {
      var i :| 0 <= i < |records| && x in ColumnsOf(records[i]);
      UnionMembers(records[i], SectionColumns, x);
    }
    if exists i, j :: 0 <= i < |records| && 0 <= j < |records[i]| && x in SectionColumns(records[i][j]) {
      var i, j :| 0 <= i < |records| && 0 <= j < |records[i]| && x in SectionColumns(records[i][j]);
      UnionMembers(records[i], SectionColumns, x);
    }
  }

  /** The columns of one dict section, entry by entry. */
  method DictColumnNames(columns: set<string>, name: string, f: Fields) returns (r: set<string>)
    requires DictOk(f)
    ensures r == columns + Union(f, EntryColumnsFor(name))
  {
    r := columns;
    for j := 0 to |f|
      invariant r == columns + Union(f[..j], EntryColumnsFor(name))
    {
      UnionStep(f, EntryColumnsFor(name), j);
      var (key, value) := f[j];
      if SlotsEntry(key, value) {
        var slotColumns := ExtractSlotsColumnNames(value.items, name);
        r := r + slotColumns;
      } else {
        r := r + {name + "_" + key};
      }
    }
    assert f[..|f|] == f;
  }

  /** `_extract_column_names_from_ap_data`: the columns of one record, section by section. */
  method ExtractColumnNames(d: Fields) returns (columns: set<string>)
    requires RecordOk(d)
    ensures columns == ColumnsOf(d)
  {
    columns := {};
    for i := 0 to |d|
      invariant columns == Union(d[..i], SectionColumns)
    {
      UnionStep(d, SectionColumns, i);
      var (name, v) := d[i];
      if name == "satellites" {
        var satelliteColumns := GetSatelliteColumnNames(v.items);
        columns := columns + satelliteColumns;
      } else if name == "raw_data" {
        if v.Obj? {
          columns := AddPrefixedKeys(columns, "raw_", v.fields);
        }
      } else if v.Obj? {
        columns := DictColumnNames(columns, name, v.fields);
      } else {
        columns := columns + {name};
      }
    }
    assert d[..|d|] == d;
  }

  /**
   * `_get_all_column_names`: the union of every record's columns, sorted. The
   * result is strictly ascending (so free of duplicates), holds exactly the
   * union, and is the one such list.
   */
  method GetAllColumnNames(records: seq<Fields>) returns (r: seq<string>)
    requires RecordsOk(records)
    ensures Ascending(r) && Elements(r) == ColumnUnion(records)
    ensures r == SortedNames(ColumnUnion(records))
  {
    var all: set<string> := {};
    for i := 0 to |records|
      invariant all == Union(records[..i], ColumnsOf)
    {
      UnionStep(records, ColumnsOf, i);
      var columns := ExtractColumnNames(records[i]);
      all := all + columns;
    }
    assert records[..|records|] == records;
    r := [];
    var rest := all;
    while rest != {}
      invariant rest <= all && Ascending(r) && Elements(r) == all - rest
      decreases |rest|
    {
      var x :| x in rest;
      r := Insert(x, r);
      rest := rest - {x};
    }
    AscendingUnique(r, SortedNames(all));
  }
}
