/**
 * The two free-form tables of a capture: the satellite table that follows
 * the "Const." header line, and the raw key/value pairs found anywhere in
 * the text. Both are shared by `GnssInfoParser` (case-insensitive anchors,
 * upper-cased constellation prefixes) and by `parse_gnss_log.parse_flexible`
 * (case-sensitive anchors and prefixes).
 */
module Tables {
  import opened Common
  import opened Text
  import opened Json
  import opened Scan

  // ---------------------------------------------------------------- satellite table

  /** The prefixes `_extract_satellite_data` compares with the upper-cased line. */
  const InfoSystems: seq<string> := ["GPS", "GLONASS", "GALILEO", "BEIDOU"]

  /** The prefixes `parse_flexible` compares with the line as it is. */
  const LogSystems: seq<string> := ["GPS", "GLONASS", "Galileo", "BeiDou"]

  /** `re.split(r'\s+', t)` of a stripped text: its tokens, or `[""]` when it is empty. */
  function WsSplit(t: string): (r: seq<string>)
    ensures |r| >= 1
  {
    var ts := Tokens(t);
    if |ts| == 0 then [""] else ts
  }

  /** On a text that starts with a non-space, `re.split(r'\s+', t)` is its list of tokens. */
  lemma WsSplitTokens(t: string)
    requires |t| > 0 && !IsSpace(t[0])
    ensures WsSplit(t) == Tokens(t)
  {
    var r := LStrip(t);
    assert |t| - |r| == 0;
  }

  /** A run of digits and dots: `re.match(r'^[\d\.]+$', t)` on a token. */
  predicate DigitsAndDots(t: string)
  {
    |t| > 0 && forall k :: 0 <= k < |t| ==> InClass(t[k], DigitDot)
  }

  /**
   * A table cell: an `int` when it is all digits, a `float` when it is
   * digits and dots that `float()` accepts, the text itself otherwise.
   */
  function Cell(t: string): Value
  {
    if IsDigits(t) then Int(DigitsValue(t))
    else if DigitsAndDots(t) then
      match ParseFloat(t)
      case Some(x) => Num(x)
      case None => Str(t)
    else Str(t)
  }

  /** Which kind of value a cell becomes, and what it holds. */
  lemma CellCases(t: string)
    ensures var r := Cell(t);
      (r.Int? <==> IsDigits(t)) &&
      (r.Num? <==> !IsDigits(t) && DigitsAndDots(t) && ParseFloat(t).Some?) &&
      (r.Num? ==> r.r == ParseFloat(t).value) &&
      (r.Str? ==> r.s == t) &&
      (r.Int? || r.Num? || r.Str?)
  {
  }

  /** The decimal text of a count reads back as that count. */
  lemma CellNat(n: nat)
    ensures Cell(NatToString(n)) == Int(n)
  {
    DigitsValueNatToString(n);
  }

  /** A signed value such as `-128` is neither digits nor digits and dots, so it stays text. */
  lemma CellSigned(t: string)
    requires |t| > 0 && t[0] == '-'
    ensures Cell(t) == Str(t)
  {
    assert !IsDigit(t[0]) && !InClass(t[0], DigitDot);
  }

  /** The `(lower-cased header, cell)` pairs for columns `1 .. n-1`, in column order. */
  function CellWrites(headers: seq<string>, parts: seq<string>, n: nat): (r: Fields)
    requires n <= |headers| && n <= |parts|
    ensures |r| == if n == 0 then 0 else n - 1
  {
    ColumnWrites(n, ColumnPair(headers, parts))
  }

  /** Column `c`'s lower-cased header and cell. */
  function ColumnPair(headers: seq<string>, parts: seq<string>): nat -> (string, Value)
  {
    (c: nat) => if c < |headers| && c < |parts| then (Lower(headers[c]), Cell(parts[c])) else ("", Null)
  }

  /** `f(1), ..., f(n - 1)`. */
  function ColumnWrites(n: nat, f: nat -> (string, Value)): (r: Fields)
    ensures |r| == if n == 0 then 0 else n - 1
  {
    if n <= 1 then [] else ColumnWrites(n - 1, f) + [f(n - 1)]
  }

  lemma {:induction false} ColumnWritesAt(n: nat, f: nat -> (string, Value), j: nat)
    requires j + 1 < n
    ensures ColumnWrites(n, f)[j] == f(j + 1)
  {
    if j + 2 < n {
      ColumnWritesAt(n - 1, f, j);
    }
  }

  /** Entry `j` is column `j + 1`'s lower-cased header and cell. */
  lemma CellWritesAt(headers: seq<string>, parts: seq<string>, n: nat, j: nat)
    requires n <= |headers| && n <= |parts| && j + 1 < n
    ensures CellWrites(headers, parts, n)[j] == (Lower(headers[j + 1]), Cell(parts[j + 1]))
  {
    ColumnWritesAt(n, ColumnPair(headers, parts), j);
  }

  /** The keys of the pairs: each column's lower-cased header. */
  lemma CellWritesKeys(headers: seq<string>, parts: seq<string>, n: nat)
    requires n <= |headers| && n <= |parts|
    ensures forall j :: 0 <= j < |CellWrites(headers, parts, n)| ==> CellWrites(headers, parts, n)[j].0 == Lower(headers[j + 1])
  {
    forall j | 0 <= j < |CellWrites(headers, parts, n)|
      ensures CellWrites(headers, parts, n)[j].0 == Lower(headers[j + 1])
    {
      CellWritesAt(headers, parts, n, j);
    }
  }

  /** One satellite: its constellation, then each column the header names. */
  function SatelliteRow(headers: seq<string>, parts: seq<string>): (r: Fields)
    requires |parts| >= 1
    ensures |r| >= 1 && r[0].0 == "constellation"
    ensures UniqueKeys(r)
  {
    var n := if |parts| < |headers| then |parts| else |headers|;
    var init := [("constellation", Str(parts[0]))];
    PutAllFacts(init, CellWrites(headers, parts, n));
    PutAllFront(init, CellWrites(headers, parts, n));
    PutAll(init, CellWrites(headers, parts, n))
  }

  lemma PutAllFront(init: Fields, w: Fields)
    requires |init| >= 1
    ensures |PutAll(init, w)| >= 1 && PutAll(init, w)[0].0 == init[0].0
  {
    PutAllFacts(init, w);
    var ks := Keys(PutAll(init, w));
    assert ks[0] == Keys(init)[0];
  }

  /**
   * A column holds its own cell unless a later column repeats its header;
   * `constellation` holds the first token unless a header is named so.
   */
  lemma SatelliteRowCell(headers: seq<string>, parts: seq<string>, j: nat)
    requires 1 <= j < |parts| && j < |headers|
    requires forall l :: j < l < |parts| && l < |headers| ==> Lower(headers[l]) != Lower(headers[j])
    ensures Get(SatelliteRow(headers, parts), Lower(headers[j])) == Some(Cell(parts[j]))
  {
    var n := if |parts| < |headers| then |parts| else |headers|;
    var w := CellWrites(headers, parts, n);
    var init := [("constellation", Str(parts[0]))];
    var k := Lower(headers[j]);
    CellWritesAt(headers, parts, n, j - 1);
    CellWritesKeys(headers, parts, n);
    PutAllLast(init, w, j - 1, k);
  }

  /** After the assignments `w`, `k` holds the value of its last assignment, at index `i`. */
  lemma PutAllLast(d: Fields, w: Fields, i: nat, k: string)
    requires i < |w| && w[i].0 == k
    requires forall l :: i < l < |w| ==> w[l].0 != k
    ensures Get(PutAll(d, w), k) == Some(w[i].1)
  {
    PutAllGets(d, w);
    LastGetTail(w, i, k);
    assert Keys(w)[i] == k;
  }

  /** The last assignment to `k` is at index `i` when no later one assigns `k`. */
  lemma {:induction false} LastGetTail(w: Fields, i: nat, k: string)
    requires i < |w| && w[i].0 == k
    requires forall l :: i < l < |w| ==> w[l].0 != k
    ensures LastGet(w, k) == Some(w[i].1)
    decreases |w|
  {
    if i < |w| - 1 {
      LastGetTail(w[..|w| - 1], i, k);
    }
  }

  lemma SatelliteRowConstellation(headers: seq<string>, parts: seq<string>)
    requires |parts| >= 1
    requires forall l :: 1 <= l < |parts| && l < |headers| ==> Lower(headers[l]) != "constellation"
    ensures Get(SatelliteRow(headers, parts), "constellation") == Some(Str(parts[0]))
  {
    var n := if |parts| < |headers| then |parts| else |headers|;
    var w := CellWrites(headers, parts, n);
    var init := [("constellation", Str(parts[0]))];
    PutAllFacts(init, w);
    CellWritesKeys(headers, parts, n);
    assert "constellation" !in Keys(w);
  }

  /** The inner loop: `satellite[key] = ...` for each column the header and the line both have. */
  method BuildSatellite(headers: seq<string>, parts: seq<string>) returns (sat: Fields)
    requires |headers| >= 1 && |parts| >= 1
    ensures sat == SatelliteRow(headers, parts)
  {
    var n := if |parts| < |headers| then |parts| else |headers|;
    var init := [("constellation", Str(parts[0]))];
    sat := init;
    for j := 1 to n
      invariant sat == PutAll(init, CellWrites(headers, parts, j))
    {
      PutAllSnoc(init, CellWrites(headers, parts, j), Lower(headers[j]), Cell(parts[j]));
      sat := Put(sat, Lower(headers[j]), Cell(parts[j]));
    }
  }

  /** The line starts with one of the constellation names (upper-cased first when `ci`). */
  function SystemLine(line: string, systems: seq<string>, ci: bool): (r: bool)
    ensures r <==> exists i :: 0 <= i < |systems| && AtCase(line, 0, systems[i], ci)
  {
    if |systems| == 0 then false
    else AtCase(line, 0, systems[0], ci) || SystemLine(line, systems[1..], ci)
  }

  /** `^=` or `example-` (any case when `ci`): the table has ended. */
  predicate EndLine(line: string, ci: bool)
  {
    (|line| > 0 && line[0] == '=') || FindFrom(line, "example-", 0, ci).Some?
  }

  /** A table line that stops the scan: not blank, not a satellite line, an end marker. */
  predicate Stops(raw: string, systems: seq<string>, ci: bool)
  {
    var line := Strip(raw);
    |line| > 0 && !SystemLine(line, systems, ci) && EndLine(line, ci)
  }

  /** A table line that yields a satellite: a satellite line with at least five tokens. */
  predicate RowLine(raw: string, systems: seq<string>, ci: bool)
  {
    var line := Strip(raw);
    |line| > 0 && SystemLine(line, systems, ci) && |WsSplit(line)| >= 5
  }

  /** The satellite of a row line. */
  function LineRow(headers: seq<string>, raw: string): Fields
  {
    var parts := WsSplit(Strip(raw));
    SatelliteRow(headers, parts)
  }

  /** The satellites of table lines `i .. stop-1`, up to the first line that stops the scan. */
  function SatellitesFrom(lines: seq<string>, headers: seq<string>, i: nat, stop: nat,
                          systems: seq<string>, ci: bool): (r: seq<Fields>)
    requires i <= stop <= |lines|
    ensures |r| <= stop - i
  {
    ScanRows(lines, i, stop, StopsOf(systems, ci), RowOf(systems, ci), SatelliteOf(headers))
  }

  function StopsOf(systems: seq<string>, ci: bool): string -> bool { line => Stops(line, systems, ci) }

  function RowOf(systems: seq<string>, ci: bool): string -> bool { line => RowLine(line, systems, ci) }

  function SatelliteOf(headers: seq<string>): string -> Fields { line => LineRow(headers, line) }

  /** The rows of lines `i .. stop-1` that `isRow` accepts, up to the first line `stops` accepts. */
  function ScanRows<R>(lines: seq<string>, i: nat, stop: nat, stops: string -> bool, isRow: string -> bool,
                       row: string -> R): (r: seq<R>)
    requires i <= stop <= |lines|
    ensures |r| <= stop - i
    decreases stop - i
  {
    if i == stop || stops(lines[i]) then []
    else (if isRow(lines[i]) then [row(lines[i])] else []) + ScanRows(lines, i + 1, stop, stops, isRow, row)
  }

  /** Every row of the scan is the row of an accepted line before the line that stops the scan. */
  lemma {:induction false} ScanOrigin<R>(lines: seq<string>, i: nat, stop: nat, stops: string -> bool,
                                         isRow: string -> bool, row: string -> R, k: nat) returns (l: nat)
    requires i <= stop <= |lines| && k < |ScanRows(lines, i, stop, stops, isRow, row)|
    ensures i <= l < FirstFrom(lines, i, stop, stops) && isRow(lines[l])
    ensures ScanRows(lines, i, stop, stops, isRow, row)[k] == row(lines[l])
    decreases stop - i
  {
    var rest := ScanRows(lines, i + 1, stop, stops, isRow, row);
    if isRow(lines[i]) && k == 0 {
      l := i;
    } else {
      var k' := if isRow(lines[i]) then k - 1 else k;
      assert ScanRows(lines, i, stop, stops, isRow, row)[k] == rest[k'];
      l := ScanOrigin(lines, i + 1, stop, stops, isRow, row, k');
    }
  }

  /**
   * `_extract_satellite_data` (`ci`, `InfoSystems`) and the table half of
   * `parse_flexible` (case-sensitive, `LogSystems`): from the first
   * "Const.", the header line's tokens, then table lines 1 to 49.
   */
  function SatelliteTable(content: string, systems: seq<string>, ci: bool): (r: seq<Fields>)
    ensures FindFrom(content, "Const.", 0, ci).None? ==> r == []
    ensures |r| <= 49
  {
    match FindFrom(content, "Const.", 0, ci)
    case None => []
    case Some(start) =>
      var lines := Split(content[start..], '\n');
      var headers := WsSplit(Strip(lines[0]));
      SatellitesFrom(lines, headers, 1, if |lines| < 50 then |lines| else 50, systems, ci)
  }

  /** Where the scan from line `i` ends: the first line that stops it, or `stop`. */
  function ScanEnd(lines: seq<string>, i: nat, stop: nat, systems: seq<string>, ci: bool): (e: nat)
    requires i <= stop <= |lines|
    ensures i <= e <= stop
    ensures e < stop ==> Stops(lines[e], systems, ci)
    ensures forall m :: i <= m < e ==> !Stops(lines[m], systems, ci)
  {
    FirstFrom(lines, i, stop, StopsOf(systems, ci))
  }

  /** Satellite `sat` of the scan from line `i` is the row of line `l`, a row line before the scan ends. */
  predicate RowOrigin(lines: seq<string>, headers: seq<string>, i: nat, stop: nat,
                      systems: seq<string>, ci: bool, sat: Fields, l: nat)
    requires i <= stop <= |lines|
  {
    i <= l < ScanEnd(lines, i, stop, systems, ci) && RowLine(lines[l], systems, ci) && sat == LineRow(headers, lines[l])
  }

  /** How the loop's own tests on a stripped line decide whether it stops the scan or yields a row. */
  lemma LineKinds(raw: string, systems: seq<string>, ci: bool)
    ensures |Strip(raw)| == 0 ==> !Stops(raw, systems, ci) && !RowLine(raw, systems, ci)
    ensures |Strip(raw)| > 0 && SystemLine(Strip(raw), systems, ci) ==>
              !Stops(raw, systems, ci) && (RowLine(raw, systems, ci) <==> |WsSplit(Strip(raw))| >= 5)
    ensures |Strip(raw)| > 0 && !SystemLine(Strip(raw), systems, ci) ==>
              !RowLine(raw, systems, ci) && (Stops(raw, systems, ci) <==> EndLine(Strip(raw), ci))
  {
  }

  /** One step of the scan: a line that neither stops it nor is a row line adds nothing. */
  lemma SatellitesSkip(lines: seq<string>, headers: seq<string>, i: nat, stop: nat, systems: seq<string>, ci: bool)
    requires i < stop <= |lines| && !Stops(lines[i], systems, ci) && !RowLine(lines[i], systems, ci)
    ensures SatellitesFrom(lines, headers, i, stop, systems, ci) == SatellitesFrom(lines, headers, i + 1, stop, systems, ci)
  {
    ScanStep(lines, i, stop, StopsOf(systems, ci), RowOf(systems, ci), SatelliteOf(headers));
  }

  /** The scan ends at a line that stops it, and at the end of the range. */
  lemma SatellitesStop(lines: seq<string>, headers: seq<string>, i: nat, stop: nat, systems: seq<string>, ci: bool)
    requires i <= stop <= |lines| && (i == stop || Stops(lines[i], systems, ci))
    ensures SatellitesFrom(lines, headers, i, stop, systems, ci) == []
  {
    ScanStep(lines, i, stop, StopsOf(systems, ci), RowOf(systems, ci), SatelliteOf(headers));
  }

  /** One step of the scan: a row line adds its satellite in front. */
  lemma SatellitesRow(lines: seq<string>, headers: seq<string>, i: nat, stop: nat, systems: seq<string>, ci: bool)
    requires i < stop <= |lines| && RowLine(lines[i], systems, ci)
    ensures !Stops(lines[i], systems, ci)
    ensures SatellitesFrom(lines, headers, i, stop, systems, ci) ==
            [LineRow(headers, lines[i])] + SatellitesFrom(lines, headers, i + 1, stop, systems, ci)
  {
    LineKinds(lines[i], systems, ci);
    ScanStep(lines, i, stop, StopsOf(systems, ci), RowOf(systems, ci), SatelliteOf(headers));
  }

  /** One step of the generic scan. */
  lemma ScanStep<R>(lines: seq<string>, i: nat, stop: nat, stops: string -> bool, isRow: string -> bool, row: string -> R)
    requires i <= stop <= |lines|
    ensures i == stop || stops(lines[i]) ==> ScanRows(lines, i, stop, stops, isRow, row) == []
    ensures i < stop && !stops(lines[i]) && !isRow(lines[i]) ==>
              ScanRows(lines, i, stop, stops, isRow, row) == ScanRows(lines, i + 1, stop, stops, isRow, row)
    ensures i < stop && !stops(lines[i]) && isRow(lines[i]) ==>
              ScanRows(lines, i, stop, stops, isRow, row) == [row(lines[i])] + ScanRows(lines, i + 1, stop, stops, isRow, row)
  {
  }

  /**
   * Every satellite comes from a satellite line of the scanned range with at
   * least five tokens, before the line that stops the scan, and is that
   * line's row.
   */
  lemma SatellitesFromOrigin(lines: seq<string>, headers: seq<string>, i: nat, stop: nat,
                             systems: seq<string>, ci: bool, k: nat) returns (l: nat)
    requires i <= stop <= |lines| && k < |SatellitesFrom(lines, headers, i, stop, systems, ci)|
    ensures RowOrigin(lines, headers, i, stop, systems, ci, SatellitesFrom(lines, headers, i, stop, systems, ci)[k], l)
  {
    l := ScanOrigin(lines, i, stop, StopsOf(systems, ci), RowOf(systems, ci), SatelliteOf(headers), k);
  }

  lemma RowStep<T>(a: seq<T>, x: T, s: seq<T>, t: seq<T>, all: seq<T>)
    requires a + t == all && t == [x] + s
    ensures (a + [x]) + s == all
  {
  }

  lemma AppendStep<T>(a: seq<T>, row: seq<T>, s: seq<T>, t: seq<T>, all: seq<T>)
    requires a + t == all && t == row + s
    ensures (a + row) + s == all
  {
  }

  lemma NilAppend<T>(s: seq<T>)
    ensures [] + s == s
  {
  }

  lemma AppendNil<T>(a: seq<T>, s: seq<T>, all: seq<T>)
    requires a + s == all && s == []
    ensures a == all
  {
  }

  /** The loop over table lines, with its `continue` and `break`. */
  method ExtractSatellites(content: string, systems: seq<string>, ci: bool) returns (satellites: seq<Fields>)
    ensures satellites == SatelliteTable(content, systems, ci)
  {
    satellites := [];
    var found := FindFrom(content, "Const.", 0, ci);
    if found.None? {
      return;
    }
    var lines := Split(content[found.value..], '\n');
    var headers := WsSplit(Strip(lines[0]));
    var stop := if |lines| < 50 then |lines| else 50;
    satellites := ScanTable(lines, headers, stop, systems, ci);
  }

  /** The loop over the table lines after the header line, up to `stop`. */
  method ScanTable(lines: seq<string>, headers: seq<string>, stop: nat, systems: seq<string>, ci: bool)
    returns (satellites: seq<Fields>)
    requires 1 <= stop <= |lines| && |headers| >= 1
    ensures satellites == SatellitesFrom(lines, headers, 1, stop, systems, ci)
  {
    satellites := [];
    ghost var all := SatellitesFrom(lines, headers, 1, stop, systems, ci);
    NilAppend(all);
    var i := 1;
    while i < stop
      invariant 1 <= i <= stop
      invariant satellites + SatellitesFrom(lines, headers, i, stop, systems, ci) == all
    {
      var row, ends := ScanLine(lines, headers, i, stop, systems, ci);
      if ends {
        break;
      }
      AppendStep(satellites, row, SatellitesFrom(lines, headers, i + 1, stop, systems, ci),
                 SatellitesFrom(lines, headers, i, stop, systems, ci), all);
      satellites := satellites + row;
      i := i + 1;
    }
    if i == stop {
      SatellitesStop(lines, headers, i, stop, systems, ci);
    }
    AppendNil(satellites, SatellitesFrom(lines, headers, i, stop, systems, ci), all);
  }

  /**
   * One pass of the loop: a blank line is skipped (`continue`), a satellite
   * line with at least five tokens adds its satellite, another satellite line
   * is skipped, an end line ends the table (`break`), any other line is skipped.
   */
  method ScanLine(lines: seq<string>, headers: seq<string>, i: nat, stop: nat, systems: seq<string>, ci: bool)
    returns (row: seq<Fields>, ends: bool)
    requires i < stop <= |lines| && |headers| >= 1
    ensures ends ==> SatellitesFrom(lines, headers, i, stop, systems, ci) == []
    ensures !ends ==> SatellitesFrom(lines, headers, i, stop, systems, ci) ==
                        row + SatellitesFrom(lines, headers, i + 1, stop, systems, ci)
  {
    row, ends := [], false;
    var line := Strip(lines[i]);
    LineKinds(lines[i], systems, ci);
    if |line| == 0 {
      SatellitesSkip(lines, headers, i, stop, systems, ci);
      return;
    }
    if SystemLine(line, systems, ci) {
      var parts := WsSplit(line);
      if |parts| >= 5 {
        SatellitesRow(lines, headers, i, stop, systems, ci);
        var satellite := BuildSatellite(headers, parts);
        row := [satellite];
      } else {
        SatellitesSkip(lines, headers, i, stop, systems, ci);
      }
    } else if EndLine(line, ci) {
      SatellitesStop(lines, headers, i, stop, systems, ci);
      ends := true;
    } else {
      SatellitesSkip(lines, headers, i, stop, systems, ci);
    }
  }

  // ---------------------------------------------------------------------------
  // Raw key/value data
  // ---------------------------------------------------------------------------

  /**
   * The greedy chain `c+(?:\s+c+)*` from offset `i`, which must hold a `c`:
   * where it ends.
   */
  function ChainEnd(s: string, i: nat, k: CharClass): (e: nat)
    requires i < |s| && InClass(s[i], k)
    ensures i < e <= |s| && InClass(s[e - 1], k)
    ensures e < |s| ==> !InClass(s[e], k)
    ensures e < |s| && IsSpace(s[e]) ==> var j := SkipSpace(s, e); j == |s| || !InClass(s[j], k)
    decreases |s| - i
  {
    var e := RunEnd(s, i, k);
    var j := SkipSpace(s, e);
    if e < j < |s| && InClass(s[j], k) then ChainEnd(s, j, k) else e
  }

  /** One match of the key/value pattern: where it ends, group 1 and group 2. */
  datatype KvMatch = KvMatch(end: nat, key: string, value: string)

  /** A text that starts and ends with a character of class `k`. */
  predicate Edged(t: string, k: CharClass)
  {
    |t| > 0 && InClass(t[0], k) && InClass(t[|t| - 1], k)
  }

  /** Group 2 at offset `v`: `[\d\.\-]+`, else `[A-Za-z0-9]+(?:\s+[A-Za-z0-9]+)*`; where it ends. */
  function ValueEnd(s: string, v: nat): (r: Option<nat>)
    requires v <= |s|
    ensures r.Some? ==> v < r.value <= |s| && !IsSpace(s[v]) && !IsSpace(s[r.value - 1])
  {
    if v < |s| && InClass(s[v], DigitDotDash) then Some(RunEnd(s, v, DigitDotDash))
    else if v < |s| && IsAlnum(s[v]) then Some(ChainEnd(s, v, AlphaNum))
    else None
  }

  /**
   * `([A-Za-z0-9_]+(?:\s+[A-Za-z0-9_]+)*)(?:\s*:)\s*([\d\.\-]+|[A-Za-z0-9]+(?:\s+[A-Za-z0-9]+)*)`
   * matched at offset `q`. Each greedy run is followed by something its class
   * excludes, so the only match is the one with every run taken whole.
   */
  function KvAt(s: string, q: nat): (r: Option<KvMatch>)
    ensures r.Some? ==> q < r.value.end <= |s|
  {
    if q < |s| && InClass(s[q], Word) then
      var e := ChainEnd(s, q, Word);
      var c := SkipSpace(s, e);
      if c < |s| && s[c] == ':' then
        var v := SkipSpace(s, c + 1);
        match ValueEnd(s, v)
        case Some(w) => Some(KvMatch(w, s[q..e], s[v..w]))
        case None => None
      else None
    else None
  }

  /** A key starts and ends with a word character. */
  lemma KvKeyEdged(s: string, q: nat)
    requires KvAt(s, q).Some?
    ensures Edged(KvAt(s, q).value.key, Word)
  {
    var e := ChainEnd(s, q, Word);
    var t := s[q..e];
    assert t[0] == s[q] && t[|t| - 1] == s[e - 1];
  }

  /** `group(1).strip().replace(" ", "_").lower()`. */
  function RawKey(g: string): (r: string)
  {
    Lower(ReplaceChar(Strip(g), ' ', "_"))
  }

  /** The value of a match: a boolean, else `float` when it holds a dot, else `int`, else the text. */
  function RawValue(g: string): (r: Value)
  {
    var v := Strip(g);
    if Lower(v) == "true" || Lower(v) == "false" then Bool(Lower(v) == "true")
    else if '.' in v then
      match ParseFloat(v)
      case Some(x) => Num(x)
      case None => Str(v)
    else
      match ParseInt(v)
      case Some(n) => Int(n)
      case None => Str(v)
  }

  /** The assignments the key/value loop makes, in order. */
  function RawWrites(s: string, p: nat): Fields
    requires p <= |s|
    decreases |s| - p
  {
    match SearchFrom<KvMatch>(s, p, KvAt)
    case None => []
    case Some(found) =>
      var m := found.1;
      [(RawKey(m.key), RawValue(m.value))] + RawWrites(s, m.end)
  }

  /** `_extract_raw_data`, and the raw-data half of `parse_flexible`. */
  function RawData(content: string): Fields
  {
    PutAll([], RawWrites(content, 0))
  }

  /**
   * The raw data is a dictionary whose keys are those of the matches, each
   * once, in order of first appearance, and whose value for a key is the one
   * of the last match that produced it.
   */
  lemma RawDataLastWins(content: string, k: string)
    ensures UniqueKeys(RawData(content))
    ensures Keys(RawData(content)) == NewKeys(Keys(RawWrites(content, 0)), [])
    ensures Get(RawData(content), k) == LastGet(RawWrites(content, 0), k)
  {
    PutAllFacts([], RawWrites(content, 0));
  }

  /** The loop over `re.finditer`, assigning each match in turn. */
  method ExtractRawData(content: string) returns (raw: Fields)
    ensures raw == RawData(content)
  {
    raw := [];
    var p := 0;
    ghost var done: Fields := [];
    NilAppend(RawWrites(content, 0));
    while true
      invariant p <= |content|
      invariant raw == PutAll([], done)
      invariant done + RawWrites(content, p) == RawWrites(content, 0)
      decreases |content| - p
    {
      var found := SearchFrom<KvMatch>(content, p, KvAt);
      if found.None? {
        break;
      }
      var m := found.value.1;
      var key := RawKey(m.key);
      var value := RawValue(m.value);
      RowStep(done, (key, value), RawWrites(content, m.end), RawWrites(content, p), RawWrites(content, 0));
      PutAllSnoc([], done, key, value);
      raw := Put(raw, key, value);
      done := done + [(key, value)];
      p := m.end;
    }
    AppendNil(done, RawWrites(content, p), RawWrites(content, 0));
  }

  /** A key never holds a space: each one became `_`. */
  lemma RawKeyNoSpace(g: string)
    ensures ' ' !in RawKey(g)
  {
    var t := ReplaceChar(Strip(g), ' ', "_");
    forall i | 0 <= i < |t|
      ensures RawKey(g)[i] != ' '
    {
      assert t[i] != ' ';
    }
  }

  /** A value written as Python writes an integer reads back as that integer. */
  lemma RawValueInt(n: int)
    ensures RawValue(IntToString(n)) == Int(n)
  {
    ParseIntIntToString(n);
    IntToStringChars(n);
    RawValueIntText(IntToString(n), n);
  }

  /** Trimmed text without a dot that `int()` reads as `n` is the value `n`. */
  lemma RawValueIntText(t: string, n: int)
    requires |t| > 0 && Trimmed(t) && '.' !in t && (IsDigit(t[0]) || t[0] == '-')
    requires ParseInt(t) == Some(n)
    ensures RawValue(t) == Int(n)
  {
    StripTrimmed(t);
    assert Lower(t)[0] == LowerChar(t[0]);
  }
}
