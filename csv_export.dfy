/**
 * The append-or-overwrite decision of `export_gnss_data_to_csv`
 * (lib/exporters/csv_exporter.py). The file system is a value: whether the
 * output directory can be used, whether the file exists, and the first row a
 * `csv.reader` returns for it (empty when the file is empty or unreadable).
 * What the exporter writes is described by the mode it opens the file in, the
 * field names, whether a header line is written, and the data lines.
 */
module CsvExport {
  import opened Common
  import opened Json
  import opened Ordering
  import opened CsvColumns
  import opened SatelliteStats
  import opened CsvRows

  /** What the exporter finds on disk. */
  datatype Target = Target(dirOk: bool, present: bool, header: seq<string>)

  /** How the output file is opened: not at all, with 'w', or with 'a'. */
  datatype Mode = Untouched | Overwrite | Append

  /** The returned flag and what went to the file. */
  datatype Export = Export(ok: bool, mode: Mode, fieldnames: seq<string>, header: bool, lines: seq<seq<Value>>)

  /** `DictWriter.writerow` raises unless every key of the row is a field name. */
  predicate Fits(row: Fields, fieldnames: seq<string>)
  {
    forall k :: k in Keys(row) ==> k in fieldnames
  }

  /** The cells `DictWriter.writerow` writes: the row's value per field name, "" where it has none. */
  function Line(row: Fields, fieldnames: seq<string>): (r: seq<Value>)
    ensures |r| == |fieldnames|
  {
    seq(|fieldnames|, j requires 0 <= j < |fieldnames| => GetOr(row, fieldnames[j], Str("")))
  }

  /** Whether `writerow` accepts the row of record `d`. */
  predicate RecordFits(d: Fields, fieldnames: seq<string>)
  {
    Fits(Row(d, fieldnames), fieldnames)
  }

  /** `f` applied to each element in turn. */
  function Mapped<T, U>(s: seq<T>, f: T -> U): (r: seq<U>)
    ensures |r| == |s|
  {
    if |s| == 0 then [] else Mapped(s[..|s| - 1], f) + [f(s[|s| - 1])]
  }

  lemma {:induction false} MappedAt<T, U>(s: seq<T>, f: T -> U, i: nat)
    requires i < |s|
    ensures Mapped(s, f)[i] == f(s[i])
  {
    var n := |s| - 1;
    if i < n {
      MappedAt(s[..n], f, i);
    }
  }

  lemma MappedStep<T, U>(s: seq<T>, f: T -> U, i: nat)
    requires i < |s|
    ensures Mapped(s[..i + 1], f) == Mapped(s[..i], f) + [f(s[i])]
  {
    assert s[..i + 1][..i] == s[..i];
  }

  /** The line `writerow` writes for record `d`. */
  function RecordLine(d: Fields, fieldnames: seq<string>): seq<Value>
  {
    Line(Row(d, fieldnames), fieldnames)
  }

  /** The lines of the records' rows. */
  function Lines(records: seq<Fields>, fieldnames: seq<string>): (r: seq<seq<Value>>)
    ensures |r| == |records|
  {
    Mapped(records, d => RecordLine(d, fieldnames))
  }

  /** Line `i` is the line of record `i`. */
  lemma LinesAt(records: seq<Fields>, fieldnames: seq<string>, i: nat)
    requires i < |records|
    ensures Lines(records, fieldnames)[i] == Line(Row(records[i], fieldnames), fieldnames)
  {
    MappedAt(records, d => RecordLine(d, fieldnames), i);
  }

  /** How many records are written before the first one whose row `writerow` refuses. */
  function FitCount(records: seq<Fields>, fieldnames: seq<string>): (n: nat)
    ensures n <= |records|
    ensures forall i :: 0 <= i < n ==> RecordFits(records[i], fieldnames)
    ensures n < |records| ==> !RecordFits(records[n], fieldnames)
  {
    PrefixWhile(records, d => RecordFits(d, fieldnames))
  }

  /** The length of the longest prefix of `s` whose elements all satisfy `p`. */
  function PrefixWhile<T>(s: seq<T>, p: T -> bool): (n: nat)
    ensures n <= |s|
    ensures forall i :: 0 <= i < n ==> p(s[i])
    ensures n < |s| ==> !p(s[n])
  {
    if |s| == 0 || !p(s[0]) then 0
    else 1 + PrefixWhile(s[1..], p)
  }

  /** The first refused record, if any, is where writing stops. */
  lemma FitCountUnique(records: seq<Fields>, fieldnames: seq<string>, i: nat)
    requires i <= |records| && forall j :: 0 <= j < i ==> RecordFits(records[j], fieldnames)
    requires i < |records| ==> !RecordFits(records[i], fieldnames)
    ensures FitCount(records, fieldnames) == i
  {
  }

  /** Writes the records' rows under `fieldnames` until one is refused. */
  function WriteRows(mode: Mode, fieldnames: seq<string>, header: bool, records: seq<Fields>): Export
  {
    var n := FitCount(records, fieldnames);
    Export(n == |records|, mode, fieldnames, header, Lines(records[..n], fieldnames))
  }

  /** Writing succeeds exactly when every row is accepted; each line written is its record's line. */
  lemma WriteRowsFacts(mode: Mode, fieldnames: seq<string>, header: bool, records: seq<Fields>)
    ensures var e := WriteRows(mode, fieldnames, header, records);
      (e.ok <==> forall i :: 0 <= i < |records| ==> RecordFits(records[i], fieldnames)) &&
      |e.lines| <= |records| && (e.ok ==> |e.lines| == |records|) &&
      forall i :: 0 <= i < |e.lines| ==> e.lines[i] == Line(Row(records[i], fieldnames), fieldnames)
  {
    var n := FitCount(records, fieldnames);
    forall i | 0 <= i < n
      ensures Lines(records[..n], fieldnames)[i] == Line(Row(records[i], fieldnames), fieldnames)
    {
      LinesAt(records[..n], fieldnames, i);
    }
  }

  /** Whether the existing file's header is reused. */
  predicate Appends(append: bool, target: Target)
  {
    append && target.present && |target.header| > 0
  }

  /**
   * `export_gnss_data_to_csv`: an empty batch or an unusable directory fails
   * before the file is touched; appending to a file with a header reuses that
   * header and writes none; otherwise the columns are derived from the batch,
   * sorted, and written as a header first.
   */
  ghost function ExportOf(records: seq<Fields>, append: bool, target: Target): Export
  {
    if |records| == 0 || !target.dirOk then Export(false, Untouched, [], false, [])
    else if Appends(append, target) then WriteRows(Append, target.header, false, records)
    else
      var columns := SortedNames(ColumnUnion(records));
      WriteRows(Overwrite, columns, true, records)
  }

  lemma LinesStep(records: seq<Fields>, fieldnames: seq<string>, i: nat)
    requires i < |records|
    ensures Lines(records[..i + 1], fieldnames) == Lines(records[..i], fieldnames) + [Line(Row(records[i], fieldnames), fieldnames)]
  {
    MappedStep(records, d => RecordLine(d, fieldnames), i);
  }

  lemma FitsStep(records: seq<Fields>, fieldnames: seq<string>, i: nat, row: Fields)
    requires i < |records| && row == Row(records[i], fieldnames) && Fits(row, fieldnames)
    requires forall j :: 0 <= j < i ==> RecordFits(records[j], fieldnames)
    ensures forall j :: 0 <= j < i + 1 ==> RecordFits(records[j], fieldnames)
  {
  }

  /** Writes the batch row by row, stopping at the first row the writer refuses. */
  method WriteBatch(records: seq<Fields>, mode: Mode, fieldnames: seq<string>, header: bool) returns (e: Export)
    requires RecordsOk(records)
    ensures e == WriteRows(mode, fieldnames, header, records)
  {
    var lines: seq<seq<Value>> := [];
    var ok := true;
    var i := 0;
    while i < |records| && ok
      invariant i <= |records|
      invariant forall j :: 0 <= j < i ==> RecordFits(records[j], fieldnames)
      invariant !ok ==> i < |records| && !RecordFits(records[i], fieldnames)
      invariant lines == Lines(records[..i], fieldnames)
      decreases |records| - i, ok
    {
      var row := FlattenApData(records[i], fieldnames);
      if Fits(row, fieldnames) {
        FitsStep(records, fieldnames, i, row);
        LinesStep(records, fieldnames, i);
        lines := lines + [Line(row, fieldnames)];
        i := i + 1;
      } else {
        ok := false;
      }
    }
    FitCountUnique(records, fieldnames, i);
    e := Export(ok, mode, fieldnames, header, lines);
  }

  method ExportGnssDataToCsv(records: seq<Fields>, append: bool, target: Target) returns (e: Export)
    requires RecordsOk(records)
    ensures e == ExportOf(records, append, target)
  {
    if |records| == 0 || !target.dirOk {
      return Export(false, Untouched, [], false, []);
    }
    if append && target.present && |target.header| > 0 {
      e := WriteBatch(records, Append, target.header, false);
    } else {
      var columns := GetAllColumnNames(records);
      e := WriteBatch(records, Overwrite, columns, true);
    }
  }

  // ---------------------------------------------------------------------------
  // Properties.
  // ---------------------------------------------------------------------------

  /** An empty batch is refused and nothing is written. */
  lemma ExportEmpty(append: bool, target: Target)
    ensures !ExportOf([], append, target).ok && ExportOf([], append, target).mode == Untouched
  {
  }

  /** Every row fits when each record's columns are field names. */
  lemma CoveredFits(records: seq<Fields>, fieldnames: seq<string>)
    requires ColumnUnion(records) <= Elements(fieldnames)
    ensures FitCount(records, fieldnames) == |records|
  {
    forall i | 0 <= i < |records|
      ensures RecordFits(records[i], fieldnames)
    {
      forall x | x in ColumnsOf(records[i])
        ensures x in Elements(fieldnames)
      {
        UnionMembers(records, ColumnsOf, x);
      }
      RowFits(records[i], fieldnames);
    }
    FitCountUnique(records, fieldnames, |records|);
  }

  /**
   * Writing a fresh file always succeeds: the header is the sorted union of
   * the batch's columns, and every record becomes one line.
   */
  lemma ExportOverwrite(records: seq<Fields>, append: bool, target: Target)
    requires |records| > 0 && target.dirOk && !Appends(append, target)
    ensures var e := ExportOf(records, append, target);
      e.ok && e.mode == Overwrite && e.header &&
      Ascending(e.fieldnames) && Elements(e.fieldnames) == ColumnUnion(records) &&
      |e.lines| == |records| &&
      forall i :: 0 <= i < |records| ==> e.lines[i] == Line(Row(records[i], e.fieldnames), e.fieldnames)
  {
    var columns := SortedNames(ColumnUnion(records));
    CoveredFits(records, columns);
    WriteRowsFacts(Overwrite, columns, true, records);
  }

  /**
   * Appending to a file with a header reuses it as the field names and writes
   * no header line; it succeeds exactly when every row fits the header, and
   * the lines written are those before the first row that does not.
   */
  lemma ExportAppend(records: seq<Fields>, append: bool, target: Target)
    requires |records| > 0 && target.dirOk && Appends(append, target)
    ensures var e := ExportOf(records, append, target);
      e.mode == Append && !e.header && e.fieldnames == target.header &&
      (e.ok <==> forall i :: 0 <= i < |records| ==> Fits(Row(records[i], target.header), target.header)) &&
      (forall i :: 0 <= i < |e.lines| ==> e.lines[i] == Line(Row(records[i], target.header), target.header))
  {
    WriteRowsFacts(Append, target.header, false, records);
  }

  /** Appending succeeds when the existing header covers every column of the batch. */
  lemma AppendCovered(records: seq<Fields>, append: bool, target: Target)
    requires |records| > 0 && target.dirOk && Appends(append, target)
    requires ColumnUnion(records) <= Elements(target.header)
    ensures ExportOf(records, append, target).ok
    ensures |ExportOf(records, append, target).lines| == |records|
  {
    CoveredFits(records, target.header);
  }

  /** Appending fails at the first record whose merged aggregates include a name the header lacks. */
  lemma AppendMissingFails(records: seq<Fields>, append: bool, target: Target, k: string)
    requires |records| > 0 && target.dirOk && Appends(append, target)
    requires k in MergedKeys(records[0]) && k !in target.header
    ensures !ExportOf(records, append, target).ok && ExportOf(records, append, target).lines == []
  {
    RowKeys(records[0], target.header, k);
    assert !RecordFits(records[0], target.header);
    FitCountUnique(records, target.header, 0);
  }

  lemma TotalInAggregate(sats: seq<Value>)
    requires |sats| > 0
    ensures CountKeys.total in Keys(Aggregate(sats))
  {
    AggregateCounts(sats, |sats|, UsedCount(sats));
  }

  lemma MergedSingle(section: (string, Value), k: string)
    requires k in AggregateKeys(section)
    ensures k in MergedKeys([section])
  {
    UnionSingle(section, AggregateKeys, k);
  }

  /** A non-empty satellite list always merges the total count. */
  lemma SatellitesMerged(sats: seq<Value>)
    requires |sats| > 0
    ensures CountKeys.total in MergedKeys([("satellites", Arr(sats))])
  {
    var section := ("satellites", Arr(sats));
    TotalInAggregate(sats);
    assert IsSatellites(section) && section.1.items == sats;
    assert CountKeys.total in AggregateKeys(section);
    MergedSingle(section, CountKeys.total);
  }

  /**
   * Appending a record with satellites to a file whose header lacks the
   * satellite count columns fails without writing a line: the aggregates are
   * merged into the row whatever the header, and the writer refuses the row.
   */
  lemma AppendNewSatellitesFails()
    ensures var e := ExportOf([[("satellites", Arr([Obj([])]))]], true, Target(true, true, ["main_ap_name"]));
      !e.ok && e.mode == Append && e.lines == []
  {
    SatellitesMerged([Obj([])]);
    assert CountKeys.total !in ["main_ap_name"];
    AppendMissingFails([[("satellites", Arr([Obj([])]))]], true, Target(true, true, ["main_ap_name"]), CountKeys.total);
  }
}
