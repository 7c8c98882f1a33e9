/**
 * The rows of the CSV exporter (`_format_csv_value`, `_flatten_slots_data` and
 * `_flatten_ap_data` in lib/exporters/csv_exporter.py). A row starts with every
 * column set to None; each section of the record then fills in the columns it
 * names, the satellite aggregates being merged in unconditionally.
 *
 * Row values are `Json.Value`s. `csv.DictWriter` writes a value that is not a
 * string through `str()`, so a number, dict or list that `_format_csv_value`
 * turns into `str(value)` is written exactly as the value itself would be; the
 * model keeps such values as they are.
 */
module CsvRows {
  import opened Common
  import opened Json
  import opened Text
  import opened Ordering
  import opened CsvColumns
  import opened SatelliteStats

  // ---------------------------------------------------------------------------
  // Cell values.
  // ---------------------------------------------------------------------------

  /** A cell text that cannot break a CSV line: no CR, no LF, no whitespace at either end. */
  predicate CleanText(s: string)
  {
    '\n' !in s && '\r' !in s && Trimmed(s)
  }

  /** `value.replace('\n', ' ').replace('\r', ' ').strip()`. */
  function Clean(s: string): (r: string)
    ensures CleanText(r)
  {
    var spaced := ReplaceChar(ReplaceChar(s, '\n', " "), '\r', " ");
    ReplaceKeeps(ReplaceChar(s, '\n', " "), '\r', " ", '\n');
    StripKeeps(spaced, '\n');
    StripKeeps(spaced, '\r');
    Strip(spaced)
  }

  lemma StripKeeps(s: string, d: char)
    requires d !in s
    ensures d !in Strip(s)
  {
  }

  lemma {:induction false} ReplaceAbsent(s: string, c: char, rep: string)
    requires c !in s
    ensures ReplaceChar(s, c, rep) == s
  {
    if |s| > 0 {
      assert s[1..] == s[1..] && forall x :: x in s[1..] ==> x in s;
      ReplaceAbsent(s[1..], c, rep);
      assert s == [s[0]] + s[1..];
    }
  }

  /** Cleaning leaves a clean text as it is. */
  lemma CleanFixed(s: string)
    requires CleanText(s)
    ensures Clean(s) == s
  {
    ReplaceAbsent(s, '\n', " ");
    ReplaceAbsent(s, '\r', " ");
    StripTrimmed(s);
  }

  lemma IntTextClean(n: int)
    ensures CleanText(IntToString(n))
  {
    if n >= 0 {
      var d := NatToString(n);
      assert forall k :: 0 <= k < |d| ==> IsDigit(d[k]);
    } else {
      var d := NatToString(-n);
      var t := "-" + d;
      assert forall k :: 1 <= k < |t| ==> t[k] == d[k - 1];
    }
  }

  /**
   * `_format_csv_value`: None is the empty text, a bool is "true" or "false"
   * (checked before numbers, as `bool` is a subclass of `int`), an int is its
   * decimal text, a string is cleaned; a float, dict or list stays as it is
   * for the writer's `str()`.
   */
  function FormatCsvValue(v: Value): (r: Value)
    ensures v.Null? ==> r == Str("")
    ensures v.Bool? ==> r == Str(if v.b then "true" else "false")
    ensures v.Int? ==> r.Str? && ParseInt(r.s) == Some(v.i)
    ensures r.Str? ==> CleanText(r.s)
    ensures v.Num? || v.Obj? || v.Arr? ==> r == v
  {
    match v
    case Null => Str("")
    case Bool(b) => Str(if b then "true" else "false")
    case Int(i) =>
      IntTextClean(i);
      ParseIntIntToString(i);
      Str(IntToString(i))
    case Num(_) => v
    case Str(s) => Str(Clean(s))
    case Obj(_) => v
    case Arr(_) => v
  }

  /** Formatting a formatted value changes nothing. */
  lemma FormatIdempotent(v: Value)
    ensures FormatCsvValue(FormatCsvValue(v)) == FormatCsvValue(v)
  {
    var r := FormatCsvValue(v);
    if r.Str? {
      CleanFixed(r.s);
    }
  }

  /** A text is left unchanged exactly when it is already clean. */
  lemma CleanExactly(s: string)
    ensures Clean(s) == s <==> CleanText(s)
  {
    if CleanText(s) {
      CleanFixed(s);
    }
  }

  // ---------------------------------------------------------------------------
  // Conditional assignments: `if k in flattened: flattened[k] = v`.
  // ---------------------------------------------------------------------------

  function SetIfPresent(row: Fields, k: string, v: Value): Fields
  {
    if k in Keys(row) then Put(row, k, v) else row
  }

  /** The conditional assignments `w`, made one after another. */
  function SetAll(row: Fields, w: Fields): Fields
  {
    if |w| == 0 then row
    else
      var last := w[|w| - 1];
      SetIfPresent(SetAll(row, w[..|w| - 1]), last.0, last.1)
  }

  /** Conditional assignments add no key; a key of the row ends with the last value assigned to it. */
  lemma {:induction false} SetAllFacts(row: Fields, w: Fields)
    ensures Keys(SetAll(row, w)) == Keys(row)
    ensures forall k :: Get(SetAll(row, w), k) == if k in Keys(row) && k in Keys(w) then LastGet(w, k) else Get(row, k)
  {
    if |w| > 0 {
      var init := w[..|w| - 1];
      SetAllFacts(row, init);
      KeysInit(w);
    }
  }

  lemma {:induction false} SetAllConcat(row: Fields, a: Fields, b: Fields)
    ensures SetAll(row, a + b) == SetAll(SetAll(row, a), b)
    decreases |b|
  {
    if |b| == 0 {
      assert a + b == a;
    } else {
      assert (a + b)[..|a + b| - 1] == a + b[..|b| - 1];
      SetAllConcat(row, a, b[..|b| - 1]);
    }
  }

  lemma SetAllSnoc(row: Fields, a: Fields, k: string, v: Value)
    ensures SetAll(row, a + [(k, v)]) == SetIfPresent(SetAll(row, a), k, v)
  {
    assert (a + [(k, v)])[..|a|] == a;
  }

  /** `for k, v in w.items(): if k in flattened: flattened[k] = v`. */
  method SetExisting(row: Fields, w: Fields) returns (r: Fields)
    ensures r == SetAll(row, w)
  {
    r := row;
    for j := 0 to |w|
      invariant r == SetAll(row, w[..j])
    {
      SetAllSnoc(row, w[..j], w[j].0, w[j].1);
      assert w[..j + 1] == w[..j] + [(w[j].0, w[j].1)];
      if w[j].0 in Keys(r) {
        r := Put(r, w[j].0, w[j].1);
      }
    }
    assert w[..|w|] == w;
  }

  // ---------------------------------------------------------------------------
  // The initial row.
  // ---------------------------------------------------------------------------

  function NullWrites(columns: seq<string>): Fields
  {
    if |columns| == 0 then [] else NullWrites(columns[..|columns| - 1]) + [(columns[|columns| - 1], Null)]
  }

  /** `flattened[column] = None` for every column in turn. */
  function NullRow(columns: seq<string>): Fields
  {
    PutAll([], NullWrites(columns))
  }

  lemma {:induction false} NullWritesFacts(columns: seq<string>, k: string)
    ensures Keys(NullWrites(columns)) == columns
    ensures k in columns ==> LastGet(NullWrites(columns), k) == Some(Null)
  {
    if |columns| > 0 {
      var init := columns[..|columns| - 1];
      NullWritesFacts(init, k);
      var w := NullWrites(columns);
      KeysInit(w);
      assert w[..|w| - 1] == NullWrites(init);
      assert columns == init + [columns[|columns| - 1]];
    }
  }

  /** The initial row has exactly the columns as keys, each holding None. */
  lemma NullRowFacts(columns: seq<string>, k: string)
    ensures k in Keys(NullRow(columns)) <==> k in columns
    ensures k in columns ==> Get(NullRow(columns), k) == Some(Null)
  {
    NullWritesFacts(columns, k);
    PutAllFacts([], NullWrites(columns));
    NewKeysMembers(columns, []);
  }

  method InitRow(columns: seq<string>) returns (row: Fields)
    ensures row == NullRow(columns)
  {
    row := [];
    for i := 0 to |columns|
      invariant row == PutAll([], NullWrites(columns[..i]))
    {
      assert columns[..i + 1][..i] == columns[..i];
      PutAllSnoc([], NullWrites(columns[..i]), columns[i], Null);
      row := Put(row, columns[i], Null);
    }
    assert columns[..|columns|] == columns;
  }

  // ---------------------------------------------------------------------------
  // Slot metrics: `_flatten_slots_data`.
  // ---------------------------------------------------------------------------

  /** The assignments of one configuration: `{prefix}{key}` for each key whose column is in the list. */
  function ConfigWrites(pre: string, config: Fields, columns: seq<string>): Fields
  {
    if |config| == 0 then []
    else
      var (k, v) := config[|config| - 1];
      ConfigWrites(pre, config[..|config| - 1], columns) + (if pre + k in columns then [(pre + k, FormatCsvValue(v))] else [])
  }

  /** The assignments of one slot; none when its configuration is empty. */
  function SlotWrites(parent: string, slot: Value, columns: seq<string>): Fields
  {
    if Configured(slot) then ConfigWrites(SlotPrefix(parent, slot.fields), Configuration(slot.fields).fields, columns) else []
  }

  function AllSlotWrites(parent: string, slots: seq<Value>, columns: seq<string>): Fields
  {
    if |slots| == 0 then []
    else AllSlotWrites(parent, slots[..|slots| - 1], columns) + SlotWrites(parent, slots[|slots| - 1], columns)
  }

  function SlotCountKey(parent: string): string
  {
    parent + "_slots_count"
  }

  /** The dict `_flatten_slots_data` returns: the slot count, then every slot's listed configuration values. */
  function SlotMetrics(parent: string, slots: seq<Value>, columns: seq<string>): Fields
  {
    PutAll([], [(SlotCountKey(parent), Int(|slots|))] + AllSlotWrites(parent, slots, columns))
  }

  lemma ConfigStep(pre: string, config: Fields, columns: seq<string>, j: nat)
    requires j < |config|
    ensures ConfigWrites(pre, config[..j + 1], columns) ==
      ConfigWrites(pre, config[..j], columns) + (if pre + config[j].0 in columns then [(pre + config[j].0, FormatCsvValue(config[j].1))] else [])
  {
    assert config[..j + 1][..j] == config[..j];
  }

  /** Assigns the listed configuration values of one slot. */
  method PutConfig(metrics: Fields, pre: string, config: Fields, columns: seq<string>) returns (r: Fields)
    ensures r == PutAll(metrics, ConfigWrites(pre, config, columns))
  {
    r := metrics;
    for j := 0 to |config|
      invariant r == PutAll(metrics, ConfigWrites(pre, config[..j], columns))
    {
      ConfigStep(pre, config, columns, j);
      var (key, value) := config[j];
      var column := pre + key;
      if column in columns {
        var cell := FormatCsvValue(value);
        PutAllSnoc(metrics, ConfigWrites(pre, config[..j], columns), column, cell);
        r := Put(r, column, cell);
      } else {
        AppendEmpty(ConfigWrites(pre, config[..j], columns), []);
      }
    }
    assert config[..|config|] == config;
  }

  /** `_flatten_slots_data`. */
  method FlattenSlotsData(slots: seq<Value>, parent: string, columns: seq<string>) returns (metrics: Fields)
    requires SlotsOk(slots)
    ensures metrics == SlotMetrics(parent, slots, columns)
  {
    var count := [(SlotCountKey(parent), Int(|slots|))];
    metrics := Put([], SlotCountKey(parent), Int(|slots|));
    assert metrics == PutAll([], count) by {
      PutAllSnoc([], [], SlotCountKey(parent), Int(|slots|));
      assert [] + [(SlotCountKey(parent), Int(|slots|))] == count;
    }
    for i := 0 to |slots|
      invariant metrics == PutAll([], count + AllSlotWrites(parent, slots[..i], columns))
    {
      assert slots[..i + 1][..i] == slots[..i];
      var slot := slots[i];
      var configuration := Configuration(slot.fields);
      AppendAssoc(count, AllSlotWrites(parent, slots[..i], columns), SlotWrites(parent, slot, columns));
      PutAllConcat([], count + AllSlotWrites(parent, slots[..i], columns), SlotWrites(parent, slot, columns));
      if Truthy(configuration) {
        metrics := PutConfig(metrics, SlotPrefix(parent, slot.fields), configuration.fields, columns);
      }
    }
    assert slots[..|slots|] == slots;
  }

  lemma {:induction false} ConfigWritesIn(pre: string, config: Fields, columns: seq<string>)
    ensures WritesIn(ConfigWrites(pre, config, columns), PrefixedKeys(pre, config))
    ensures forall i :: 0 <= i < |ConfigWrites(pre, config, columns)| ==> ConfigWrites(pre, config, columns)[i].0 in columns
  {
    if |config| > 0 {
      var init := config[..|config| - 1];
      ConfigWritesIn(pre, init, columns);
      UnionStep(config, PrefixedKey(pre), |config| - 1);
      assert config[..|config| - 1 + 1] == config;
      WritesInMono(ConfigWrites(pre, init, columns), PrefixedKeys(pre, init), PrefixedKeys(pre, config));
    }
  }

  lemma SlotWritesIn(parent: string, slot: Value, columns: seq<string>)
    ensures WritesIn(SlotWrites(parent, slot, columns), SlotKeyColumns(parent, slot))
  {
    if Configured(slot) {
      ConfigWritesIn(SlotPrefix(parent, slot.fields), Configuration(slot.fields).fields, columns);
    }
  }

  lemma {:induction false} AllSlotWritesIn(parent: string, slots: seq<Value>, columns: seq<string>)
    ensures WritesIn(AllSlotWrites(parent, slots, columns), Union(slots, SlotKeysFor(parent)))
  {
    if |slots| > 0 {
      var init := slots[..|slots| - 1];
      AllSlotWritesIn(parent, init, columns);
      SlotWritesIn(parent, slots[|slots| - 1], columns);
      var all := Union(slots, SlotKeysFor(parent));
      WritesInMono(AllSlotWrites(parent, init, columns), Union(init, SlotKeysFor(parent)), all);
      WritesInMono(SlotWrites(parent, slots[|slots| - 1], columns), SlotKeyColumns(parent, slots[|slots| - 1]), all);
      WritesInConcat(AllSlotWrites(parent, init, columns), SlotWrites(parent, slots[|slots| - 1], columns), all);
    }
  }

  /** Every slot metric is a slot column of the same section, and every configuration value it holds is under a listed column. */
  lemma SlotMetricsIn(parent: string, slots: seq<Value>, columns: seq<string>, k: string)
    requires k in Keys(SlotMetrics(parent, slots, columns))
    ensures k in SlotColumns(parent, slots)
    ensures k == SlotCountKey(parent) || k in columns
  {
    var w := [(SlotCountKey(parent), Int(|slots|))] + AllSlotWrites(parent, slots, columns);
    PutAllFromEmptyKeys(w, k);
    AllSlotWritesIn(parent, slots, columns);
    AllSlotColumnsIn(parent, slots, columns);
    var i :| 0 <= i < |w| && w[i].0 == k;
    if i > 0 {
      assert w[i] == AllSlotWrites(parent, slots, columns)[i - 1];
    }
  }

  lemma {:induction false} AllSlotColumnsIn(parent: string, slots: seq<Value>, columns: seq<string>)
    ensures forall i :: 0 <= i < |AllSlotWrites(parent, slots, columns)| ==> AllSlotWrites(parent, slots, columns)[i].0 in columns
  {
    if |slots| > 0 {
      var init := slots[..|slots| - 1];
      AllSlotColumnsIn(parent, init, columns);
      var slot := slots[|slots| - 1];
      if Configured(slot) {
        ConfigWritesIn(SlotPrefix(parent, slot.fields), Configuration(slot.fields).fields, columns);
      }
    }
  }

  // ---------------------------------------------------------------------------
  // Sections and rows: `_flatten_ap_data`.
  // ---------------------------------------------------------------------------

  /** `raw_{key}` for each raw entry, with its formatted value. */
  function RawWrites(f: Fields): Fields
  {
    if |f| == 0 then [] else RawWrites(f[..|f| - 1]) + [("raw_" + f[|f| - 1].0, FormatCsvValue(f[|f| - 1].1))]
  }

  /** One entry of a dict section: the slot metrics of a slot list, otherwise `{section}_{key}`. */
  function EntryWrites(name: string, k: string, x: Value, columns: seq<string>): Fields
  {
    if SlotsEntry(k, x) then SlotMetrics(name, x.items, columns) else [(name + "_" + k, FormatCsvValue(x))]
  }

  function DictWrites(name: string, f: Fields, columns: seq<string>): Fields
  {
    if |f| == 0 then [] else DictWrites(name, f[..|f| - 1], columns) + EntryWrites(name, f[|f| - 1].0, f[|f| - 1].1, columns)
  }

  /** The conditional assignments of a section other than "satellites". */
  function SectionWrites(section: (string, Value), columns: seq<string>): Fields
  {
    var (name, v) := section;
    if name == "raw_data" then (if v.Obj? then RawWrites(v.fields) else [])
    else if v.Obj? then DictWrites(name, v.fields, columns)
    else [(name, FormatCsvValue(v))]
  }

  predicate IsSatellites(section: (string, Value))
  {
    section.0 == "satellites" && section.1.Arr?
  }

  /** The row after one section: the aggregates merged in, or the section's values put into existing columns. */
  function SectionStep(row: Fields, section: (string, Value), columns: seq<string>): Fields
  {
    if section.0 == "satellites" then (if section.1.Arr? then PutAll(row, Aggregate(section.1.items)) else row)
    else SetAll(row, SectionWrites(section, columns))
  }

  function RowFrom(row: Fields, d: Fields, columns: seq<string>): Fields
  {
    if |d| == 0 then row else SectionStep(RowFrom(row, d[..|d| - 1], columns), d[|d| - 1], columns)
  }

  /** The row `_flatten_ap_data(d, columns)` returns. */
  function Row(d: Fields, columns: seq<string>): Fields
  {
    RowFrom(NullRow(columns), d, columns)
  }

  /** The keys the satellite sections of a record merge in. */
  function AggregateKeys(section: (string, Value)): set<string>
  {
    if IsSatellites(section) then Elements(Keys(Aggregate(section.1.items))) else {}
  }

  function MergedKeys(d: Fields): set<string>
  {
    Union(d, AggregateKeys)
  }

  // Proofs about sections.

  lemma {:induction false} RawWritesIn(f: Fields)
    ensures WritesIn(RawWrites(f), PrefixedKeys("raw_", f))
  {
    if |f| > 0 {
      var init := f[..|f| - 1];
      RawWritesIn(init);
      UnionStep(f, PrefixedKey("raw_"), |f| - 1);
      assert f[..|f| - 1 + 1] == f;
      WritesInMono(RawWrites(init), PrefixedKeys("raw_", init), PrefixedKeys("raw_", f));
    }
  }

  lemma EntryWritesIn(name: string, k: string, x: Value, columns: seq<string>)
    ensures WritesIn(EntryWrites(name, k, x, columns), EntryColumns(name, k, x))
  {
    if SlotsEntry(k, x) {
      forall i | 0 <= i < |EntryWrites(name, k, x, columns)|
        ensures EntryWrites(name, k, x, columns)[i].0 in SlotColumns(name, x.items)
      {
        SlotMetricsIn(name, x.items, columns, EntryWrites(name, k, x, columns)[i].0);
      }
    }
  }

  lemma {:induction false} DictWritesIn(name: string, f: Fields, columns: seq<string>)
    ensures WritesIn(DictWrites(name, f, columns), Union(f, EntryColumnsFor(name)))
  {
    if |f| > 0 {
      var init := f[..|f| - 1];
      var last := f[|f| - 1];
      DictWritesIn(name, init, columns);
      EntryWritesIn(name, last.0, last.1, columns);
      UnionStep(f, EntryColumnsFor(name), |f| - 1);
      assert f[..|f| - 1 + 1] == f;
      var all := Union(f, EntryColumnsFor(name));
      WritesInMono(DictWrites(name, init, columns), Union(init, EntryColumnsFor(name)), all);
      WritesInMono(EntryWrites(name, last.0, last.1, columns), EntryColumns(name, last.0, last.1), all);
      WritesInConcat(DictWrites(name, init, columns), EntryWrites(name, last.0, last.1, columns), all);
    }
  }

  /** A section other than "satellites" writes only its own columns. */
  lemma SectionWritesIn(section: (string, Value), columns: seq<string>)
    requires section.0 != "satellites"
    ensures WritesIn(SectionWrites(section, columns), SectionColumns(section))
  {
    var (name, v) := section;
    if name == "raw_data" {
      if v.Obj? {
        RawWritesIn(v.fields);
      }
    } else if v.Obj? {
      DictWritesIn(name, v.fields, columns);
    }
  }

  /** One section adds exactly its aggregate keys and changes no value outside its columns. */
  lemma SectionStepFacts(row: Fields, section: (string, Value), columns: seq<string>, k: string)
    ensures k in Keys(SectionStep(row, section, columns)) <==> k in Keys(row) || k in AggregateKeys(section)
    ensures k !in SectionColumns(section) ==> Get(SectionStep(row, section, columns), k) == Get(row, k)
  {
    if section.0 == "satellites" {
      if section.1.Arr? {
        var w := Aggregate(section.1.items);
        PutAllFacts(row, w);
        NewKeysMembers(Keys(w), Keys(row));
        AggregateKeysInColumns(section.1.items);
      }
    } else {
      var w := SectionWrites(section, columns);
      SetAllFacts(row, w);
      SectionWritesIn(section, columns);
      if k !in SectionColumns(section) {
        NotWritten(w, k);
      }
    }
  }

  /** The keys of a row: those it started with and the merged aggregate keys. */
  lemma {:induction false} RowFromKeys(row: Fields, d: Fields, columns: seq<string>, k: string)
    ensures k in Keys(RowFrom(row, d, columns)) <==> k in Keys(row) || k in MergedKeys(d)
  {
    if |d| > 0 {
      var init := d[..|d| - 1];
      RowFromKeys(row, init, columns, k);
      SectionStepFacts(RowFrom(row, init, columns), d[|d| - 1], columns, k);
      UnionStep(d, AggregateKeys, |d| - 1);
      assert d[..|d| - 1 + 1] == d;
    }
  }

  /** A value outside every column the record contributes is never touched. */
  lemma {:induction false} RowFromUntouched(row: Fields, d: Fields, columns: seq<string>, k: string)
    requires k !in ColumnsOf(d)
    ensures Get(RowFrom(row, d, columns), k) == Get(row, k)
  {
    if |d| > 0 {
      var init := d[..|d| - 1];
      UnionStep(d, SectionColumns, |d| - 1);
      assert d[..|d| - 1 + 1] == d;
      RowFromUntouched(row, init, columns, k);
      SectionStepFacts(RowFrom(row, init, columns), d[|d| - 1], columns, k);
    }
  }

  lemma {:induction false} RowFromConcat(row: Fields, a: Fields, b: Fields, columns: seq<string>)
    ensures RowFrom(row, a + b, columns) == RowFrom(RowFrom(row, a, columns), b, columns)
    decreases |b|
  {
    if |b| == 0 {
      assert a + b == a;
    } else {
      assert (a + b)[..|a + b| - 1] == a + b[..|b| - 1];
      RowFromConcat(row, a, b[..|b| - 1], columns);
    }
  }

  // Properties of the row.

  /**
   * The keys of a row are the columns and the aggregate keys of its satellite
   * sections: other values go only into columns that exist, while aggregates
   * are merged in whether or not they are columns.
   */
  lemma RowKeys(d: Fields, columns: seq<string>, k: string)
    ensures k in Keys(Row(d, columns)) <==> k in columns || k in MergedKeys(d)
  {
    RowFromKeys(NullRow(columns), d, columns, k);
    NullRowFacts(columns, k);
  }

  /** A column to which no section of the record contributes stays None. */
  lemma RowUntouched(d: Fields, columns: seq<string>, k: string)
    requires k in columns && k !in ColumnsOf(d)
    ensures Get(Row(d, columns), k) == Some(Null)
  {
    RowFromUntouched(NullRow(columns), d, columns, k);
    NullRowFacts(columns, k);
  }

  /** The merged aggregate keys are columns the record contributes. */
  lemma MergedKeysInColumns(d: Fields, k: string)
    requires k in MergedKeys(d)
    ensures k in ColumnsOf(d)
  {
    UnionMembers(d, AggregateKeys, k);
    var i :| 0 <= i < |d| && k in AggregateKeys(d[i]);
    AggregateKeysInColumns(d[i].1.items);
    UnionMembers(d, SectionColumns, k);
  }

  /** With the record's own columns listed, the row has no key outside the list. */
  lemma RowFits(d: Fields, columns: seq<string>)
    requires ColumnsOf(d) <= Elements(columns)
    ensures forall k :: k in Keys(Row(d, columns)) ==> k in columns
  {
    forall k | k in Keys(Row(d, columns))
      ensures k in columns
    {
      RowKeys(d, columns, k);
      if k in MergedKeys(d) {
        MergedKeysInColumns(d, k);
      }
    }
  }

  /** A value the sections up to `i` leave in the row stays there when no later section writes that key. */
  lemma RowAfter(d: Fields, i: nat, columns: seq<string>, k: string)
    requires i < |d| && k !in ColumnsOf(d[i + 1..])
    ensures Get(Row(d, columns), k) == Get(RowFrom(NullRow(columns), d[..i + 1], columns), k)
  {
    assert d == d[..i + 1] + d[i + 1..];
    RowFromConcat(NullRow(columns), d[..i + 1], d[i + 1..], columns);
    RowFromUntouched(RowFrom(NullRow(columns), d[..i + 1], columns), d[i + 1..], columns, k);
  }

  lemma RowPrefix(d: Fields, i: nat, columns: seq<string>)
    requires i < |d|
    ensures RowFrom(NullRow(columns), d[..i + 1], columns) == SectionStep(RowFrom(NullRow(columns), d[..i], columns), d[i], columns)
  {
    assert d[..i + 1][..i] == d[..i];
  }

  /** A plain value is put into its column when the column is a key. */
  lemma PlainStep(row: Fields, section: (string, Value), columns: seq<string>)
    requires section.0 != "satellites" && section.0 != "raw_data" && !section.1.Obj? && section.0 in Keys(row)
    ensures Get(SectionStep(row, section, columns), section.0) == Some(FormatCsvValue(section.1))
  {
    SetAllSnoc(row, [], section.0, FormatCsvValue(section.1));
    assert [] + [(section.0, FormatCsvValue(section.1))] == SectionWrites(section, columns);
  }

  /** A plain section value lands in its column when the column is listed and no later section writes it. */
  lemma RowPlain(d: Fields, i: nat, columns: seq<string>)
    requires i < |d| && d[i].0 != "satellites" && d[i].0 != "raw_data" && !d[i].1.Obj?
    requires d[i].0 in columns && d[i].0 !in ColumnsOf(d[i + 1..])
    ensures Get(Row(d, columns), d[i].0) == Some(FormatCsvValue(d[i].1))
  {
    RowAfter(d, i, columns, d[i].0);
    RowPrefix(d, i, columns);
    RowFromKeys(NullRow(columns), d[..i], columns, d[i].0);
    NullRowFacts(columns, d[i].0);
    PlainStep(RowFrom(NullRow(columns), d[..i], columns), d[i], columns);
  }

  lemma {:induction false} GetSnoc(d: Fields, x: (string, Value), k: string)
    ensures Get(d + [x], k) == if k in Keys(d) then Get(d, k) else if x.0 == k then Some(x.1) else None
  {
    if |d| > 0 {
      assert (d + [x])[1..] == d[1..] + [x];
      KeysCons(d[0], d[1..]);
      assert [d[0]] + d[1..] == d;
      GetSnoc(d[1..], x, k);
    }
  }

  /** In a dict (distinct keys), the last assignment to a key is its only one. */
  lemma {:induction false} LastGetUnique(w: Fields, k: string)
    requires UniqueKeys(w)
    ensures LastGet(w, k) == Get(w, k)
  {
    if |w| > 0 {
      var init := w[..|w| - 1];
      assert UniqueKeys(init);
      LastGetUnique(init, k);
      KeysInit(w);
      assert w == init + [w[|w| - 1]];
      GetSnoc(init, w[|w| - 1], k);
    }
  }

  /** `dict.update(w)` leaves every key of `w` with its value in `w`. */
  lemma MergeValue(before: Fields, w: Fields, k: string)
    requires UniqueKeys(w) && k in Keys(w)
    ensures Get(PutAll(before, w), k) == Get(w, k)
  {
    PutAllFacts(before, w);
    LastGetUnique(w, k);
  }

  lemma AggregateUnique(sats: seq<Value>)
    ensures UniqueKeys(Aggregate(sats))
  {
    assert UniqueKeys<Value>([]);
    PutAllFacts([], AggregateWrites(sats));
  }

  /** An aggregate value lands in the row when no later section writes that key. */
  lemma RowAggregate(d: Fields, i: nat, columns: seq<string>, k: string)
    requires i < |d| && IsSatellites(d[i]) && k in Keys(Aggregate(d[i].1.items))
    requires k !in ColumnsOf(d[i + 1..])
    ensures Get(Row(d, columns), k) == Get(Aggregate(d[i].1.items), k)
  {
    RowAfter(d, i, columns, k);
    RowPrefix(d, i, columns);
    AggregateUnique(d[i].1.items);
    MergeValue(RowFrom(NullRow(columns), d[..i], columns), Aggregate(d[i].1.items), k);
  }

  // The flattening loops.

  lemma RawStep(f: Fields, j: nat)
    requires j < |f|
    ensures RawWrites(f[..j + 1]) == RawWrites(f[..j]) + [("raw_" + f[j].0, FormatCsvValue(f[j].1))]
  {
    assert f[..j + 1][..j] == f[..j];
  }

  /** The raw entries: `raw_{key}` when that is a key of the row. */
  method PutRaw(row: Fields, f: Fields) returns (r: Fields)
    ensures r == SetAll(row, RawWrites(f))
  {
    r := row;
    for j := 0 to |f|
      invariant r == SetAll(row, RawWrites(f[..j]))
    {
      RawStep(f, j);
      var (key, value) := f[j];
      var column := "raw_" + key;
      var cell := FormatCsvValue(value);
      SetAllSnoc(row, RawWrites(f[..j]), column, cell);
      if column in Keys(r) {
        r := Put(r, column, cell);
      }
    }
    assert f[..|f|] == f;
  }

  lemma DictStep(name: string, f: Fields, columns: seq<string>, j: nat)
    requires j < |f|
    ensures DictWrites(name, f[..j + 1], columns) == DictWrites(name, f[..j], columns) + EntryWrites(name, f[j].0, f[j].1, columns)
  {
    assert f[..j + 1][..j] == f[..j];
  }

  /** The entries of a dict section: slot lists through their slot metrics, others as `{section}_{key}`. */
  method PutDict(row: Fields, name: string, f: Fields, columns: seq<string>) returns (r: Fields)
    requires DictOk(f)
    ensures r == SetAll(row, DictWrites(name, f, columns))
  {
    r := row;
    for j := 0 to |f|
      invariant r == SetAll(row, DictWrites(name, f[..j], columns))
    {
      DictStep(name, f, columns, j);
      SetAllConcat(row, DictWrites(name, f[..j], columns), EntryWrites(name, f[j].0, f[j].1, columns));
      var (key, value) := f[j];
      if SlotsEntry(key, value) {
        var slotMetrics := FlattenSlotsData(value.items, name, columns);
        r := SetExisting(r, slotMetrics);
      } else {
        var column := name + "_" + key;
        var cell := FormatCsvValue(value);
        SetAllSnoc(r, [], column, cell);
        assert [] + [(column, cell)] == EntryWrites(name, key, value, columns);
        if column in Keys(r) {
          r := Put(r, column, cell);
        }
      }
    }
    assert f[..|f|] == f;
  }

  /** One section of the record. */
  method FlattenSection(row: Fields, section: (string, Value), columns: seq<string>) returns (r: Fields)
    requires SectionOk(section.0, section.1)
    ensures r == SectionStep(row, section, columns)
  {
    var (name, v) := section;
    if name == "satellites" {
      var metrics := AggregateSatelliteData(v.items);
      r := PutAll(row, metrics);
    } else if name == "raw_data" {
      if v.Obj? {
        r := PutRaw(row, v.fields);
      } else {
        r := row;
      }
    } else if v.Obj? {
      r := PutDict(row, name, v.fields, columns);
    } else {
      var cell := FormatCsvValue(v);
      SetAllSnoc(row, [], name, cell);
      assert [] + [(name, cell)] == SectionWrites(section, columns);
      if name in Keys(row) {
        r := Put(row, name, cell);
      } else {
        r := row;
      }
    }
  }

  /** `_flatten_ap_data`: every column set to None, then the sections in order. */
  method FlattenApData(d: Fields, columns: seq<string>) returns (row: Fields)
    requires RecordOk(d)
    ensures row == Row(d, columns)
  {
    row := InitRow(columns);
    for i := 0 to |d|
      invariant row == RowFrom(NullRow(columns), d[..i], columns)
    {
      RowPrefix(d, i, columns);
      row := FlattenSection(row, d[i], columns);
    }
    assert d[..|d|] == d;
  }
}
