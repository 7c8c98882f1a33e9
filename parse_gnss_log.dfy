/**
 * `parse_gnss_log`: the stand-alone log reader. It reads the same receiver
 * fields, satellite table and raw key/value pairs as `GnssInfoParser`, but
 * every anchor and every pattern is case-sensitive, the state section is only
 * found through the exact marker "GnssState:", there is no "No GNSS detected"
 * short cut, and the metrics dict starts out empty instead of holding a
 * default schema.
 */
module GnssLog {
  import opened Common
  import opened Text
  import opened Json
  import opened GnssState
  import opened Tables
  import InfoParser

  /**
   * Where the state section lies: from the first "GnssState:" up to the first
   * "Const." at or after it (`content.find("Const.", start)`), or to the end.
   */
  function LogSpan(content: string): (r: Option<(nat, nat)>)
    ensures r.None? <==> forall j: nat :: !At(content, j, "GnssState:")
    ensures r.Some? ==> r.value.0 <= r.value.1 <= |content|
    ensures r.Some? ==> At(content, r.value.0, "GnssState:") &&
                        forall j: nat :: j < r.value.0 ==> !At(content, j, "GnssState:")
    ensures r.Some? ==> forall j: nat :: r.value.0 <= j < r.value.1 ==> !At(content, j, "Const.")
    ensures r.Some? && r.value.1 < |content| ==> At(content, r.value.1, "Const.")
  {
    CaseSensitive(content, "GnssState:");
    CaseSensitive(content, "Const.");
    match Find(content, "GnssState:")
    case None => None
    case Some(start) =>
      match FindFrom(content, "Const.", start, false)
      case Some(end) => Some((start, end))
      case None => Some((start, |content|))
  }

  lemma CaseSensitive(s: string, p: string)
    ensures forall j: nat :: AtCase(s, j, p, false) == At(s, j, p)
  {
  }

  /** The state section's text. */
  function LogSection(content: string): Option<string>
  {
    match LogSpan(content)
    case None => None
    case Some(span) => Some(content[span.0..span.1])
  }

  /**
   * `extract_gnss_metrics`: an empty dict when the capture has no
   * "GnssState:", otherwise the metrics of its state section.
   */
  function LogMetrics(content: string): (r: Result<Fields>)
    ensures LogSection(content).None? ==> r == Success([])
  {
    match LogSection(content)
    case None => Success([])
    case Some(section) => SectionMetrics(section)
  }

  /**
   * The metrics of a state section: the assignments of the three number
   * groups and then of the pattern table, all case-sensitive, made to an
   * empty dict; the uncaught `ValueError` of a group's `float()`.
   */
  function SectionMetrics(section: string): Result<Fields>
  {
    Applied([], StateWrites(section, false))
  }

  /** `extract_gnss_metrics`, reusing the assignment loop of the info parser with the case-sensitive patterns. */
  method ExtractGnssMetrics(content: string) returns (metrics: Result<Fields>)
    ensures metrics == LogMetrics(content)
  {
    var section := LogSection(content);
    if section.None? {
      return Success([]);
    }
    metrics := ApplyStateWrites(section.value, [], false);
  }

  /**
   * The metrics of a section fail exactly when one of its number groups
   * matched with a capture `float()` rejects.
   */
  lemma SectionMetricsFails(section: string)
    ensures SectionMetrics(section).Failure? <==>
              GroupFails(EllipseCaptures(section, false)) || GroupFails(DopCaptures(section, false)) ||
              GroupFails(HdopCaptures(section, false))
  {
    GroupsWritesFail(section, false);
  }

  /**
   * Only fields of the receiver schema appear, each once, and never the
   * "No GNSS detected" flag, which this reader does not produce.
   */
  lemma SectionMetricsKeys(section: string)
    requires SectionMetrics(section).Success?
    ensures UniqueKeys(SectionMetrics(section).value)
    ensures forall k :: k in Keys(SectionMetrics(section).value) ==> k in StateKeys && k != "no_gnss_detected"
  {
    var w := StateWrites(section, false).value;
    PutAllFacts([], w);
    NewKeysMembers(Keys(w), []);
    StateWritesInSchema(section, false);
  }

  /**
   * A field of the pattern table holds the converted first (case-sensitive)
   * match of its pattern in the section, and is absent when the pattern does
   * not match.
   */
  lemma SectionPatternField(section: string, j: nat)
    requires j < |StatePatterns| && SectionMetrics(section).Success?
    ensures Get(SectionMetrics(section).value, StatePatterns[j].key) == Captured(section, StatePatterns[j], false)
  {
    PatternApart(j);
    WrittenField(section, StatePatterns, j, false);
  }

  /** After the groups' assignments and the table's, an entry's key holds what the entry contributed. */
  lemma WrittenField(section: string, pats: seq<FieldPattern>, j: nat, ci: bool)
    requires j < |pats| && GroupsWrites(section, ci).Success?
    requires forall a :: 0 <= a < |pats| && a != j ==> pats[a].key != pats[j].key
    requires pats[j].key !in GroupKeys
    ensures Get(PutAll([], GroupsWrites(section, ci).value + PatternWrites(section, pats, ci)), pats[j].key) ==
              Captured(section, pats[j], ci)
  {
    FreshTableField(GroupsWrites(section, ci).value, section, pats, j, ci);
  }

  /** The groups assign only group keys. */
  lemma GroupsMiss(section: string, w1: Fields, w2: Fields, w3: Fields, k: string)
    requires k !in GroupKeys
    requires GroupWrites(EllipseKeys, EllipseCaptures(section, false)) == Success(w1)
    requires GroupWrites(DopKeys, DopCaptures(section, false)) == Success(w2)
    requires GroupWrites(["horacc_hdop"], HdopCaptures(section, false)) == Success(w3)
    ensures k !in Keys(w1 + w2 + w3)
  {
    KeysAppend(w1, w2);
    KeysAppend(w1 + w2, w3);
  }

  /** The metrics of a section that did not fail: the three groups' assignments, then the table's. */
  lemma SectionParts(section: string) returns (w1: Fields, w2: Fields, w3: Fields, pw: Fields)
    requires SectionMetrics(section).Success?
    ensures SectionMetrics(section).value == PutAll([], w1 + w2 + w3 + pw)
    ensures pw == PatternWrites(section, StatePatterns, false)
    ensures GroupWrites(EllipseKeys, EllipseCaptures(section, false)) == Success(w1)
    ensures GroupWrites(DopKeys, DopCaptures(section, false)) == Success(w2)
    ensures GroupWrites(["horacc_hdop"], HdopCaptures(section, false)) == Success(w3)
  {
    w1 := GroupWrites(EllipseKeys, EllipseCaptures(section, false)).value;
    w2 := GroupWrites(DopKeys, DopCaptures(section, false)).value;
    w3 := GroupWrites(["horacc_hdop"], HdopCaptures(section, false)).value;
    pw := PatternWrites(section, StatePatterns, false);
  }

  /** After assignments that do not touch an entry's key, and then the table's, the key holds what the entry contributed. */
  lemma FreshTableField(gw: Fields, section: string, pats: seq<FieldPattern>, j: nat, ci: bool)
    requires j < |pats|
    requires forall a :: 0 <= a < |pats| && a != j ==> pats[a].key != pats[j].key
    requires pats[j].key !in Keys(gw)
    ensures Get(PutAll([], gw + PatternWrites(section, pats, ci)), pats[j].key) == Captured(section, pats[j], ci)
  {
    var k := pats[j].key;
    var caps := Captures(section, pats, ci);
    var pw := TableWrites(pats, caps);
    TableWritesLast(pats, caps, j);
    CapturesAt(section, pats, ci, j);
    LastGetConcat(gw, pw, k);
    PutAllGet([], gw + pw, k);
  }

  /** The value an empty dict holds for `k` after the assignments `w`: the last one to `k`. */
  lemma PutAllGet(d: Fields, w: Fields, k: string)
    requires d == []
    ensures Get(PutAll(d, w), k) == LastGet(w, k)
    ensures k in Keys(PutAll(d, w)) <==> k in Keys(w)
  {
    PutAllFacts(d, w);
    NewKeysMembers(Keys(w), []);
  }

  /** The capture of the group that assigns the group key `k`. */
  function GroupOf(section: string, k: string): Option<seq<string>>
  {
    if k in EllipseKeys then EllipseCaptures(section, false)
    else if k in DopKeys then DopCaptures(section, false)
    else HdopCaptures(section, false)
  }

  /**
   * The number groups are all-or-nothing: a key of a group is present exactly
   * when the group's pattern matched, and then holds a number.
   */
  lemma SectionGroupPresence(section: string, k: string)
    requires SectionMetrics(section).Success? && k in GroupKeys
    ensures k in Keys(SectionMetrics(section).value) <==> GroupOf(section, k).Some?
    ensures k in Keys(SectionMetrics(section).value) ==> Get(SectionMetrics(section).value, k).value.Num?
  {
    var w1, w2, w3, pw := SectionParts(section);
    PatternsMissGroupKey(section, k, false);
    GroupKeysApart(k);
    GroupKeysOf(w1, w2, w3, pw);
    PutAllGet([], w1 + w2 + w3 + pw, k);
    GroupNumbers(w1, w2, w3, pw, k);
  }

  lemma GroupKeysOf(w1: Fields, w2: Fields, w3: Fields, pw: Fields)
    ensures Keys(w1 + w2 + w3 + pw) == Keys(w1) + Keys(w2) + Keys(w3) + Keys(pw)
  {
    KeysAppend(w1, w2);
    KeysAppend(w1 + w2, w3);
    KeysAppend(w1 + w2 + w3, pw);
  }

  /** A group key belongs to exactly one group. */
  lemma GroupKeysApart(k: string)
    requires k in GroupKeys
    ensures k in EllipseKeys ==> k !in DopKeys && k != "horacc_hdop"
    ensures k in DopKeys ==> k != "horacc_hdop"
    ensures k !in EllipseKeys && k !in DopKeys ==> k == "horacc_hdop"
  {
  }

  /** Every assignment the groups make stores a number, so the last one to `k` does. */
  lemma GroupNumbers(w1: Fields, w2: Fields, w3: Fields, pw: Fields, k: string)
    requires forall i :: 0 <= i < |w1| ==> w1[i].1.Num?
    requires forall i :: 0 <= i < |w2| ==> w2[i].1.Num?
    requires forall i :: 0 <= i < |w3| ==> w3[i].1.Num?
    requires k !in Keys(pw)
    ensures k in Keys(w1 + w2 + w3 + pw) ==> LastGet(w1 + w2 + w3 + pw, k).value.Num?
  {
    var g := w1 + w2 + w3;
    assert forall i :: 0 <= i < |g| ==> g[i].1.Num?;
    LastGetConcat(g, pw, k);
    if k in Keys(g) {
      LastGetNum(g, k);
    }
  }

  lemma {:induction false} LastGetNum(w: Fields, k: string)
    requires forall i :: 0 <= i < |w| ==> w[i].1.Num?
    requires k in Keys(w)
    ensures LastGet(w, k).value.Num?
    decreases |w|
  {
    if w[|w| - 1].0 != k {
      KeysInit(w);
      LastGetNum(w[..|w| - 1], k);
    }
  }

  // ---------------------------------------------------------------- parse_flexible

  const FlexibleKeys: seq<string> := ["raw_data", "satellites", "parse_time", "main_gnss_metrics"]

  /** The four sections of the record, in creation order. */
  function Flexible(raw: Fields, satellites: seq<Fields>, parseTime: string, metrics: Fields): (r: Fields)
    ensures Keys(r) == FlexibleKeys && UniqueKeys(r)
    ensures Get(r, "raw_data") == Some(Obj(raw)) && Get(r, "parse_time") == Some(Str(parseTime))
    ensures Get(r, "satellites") == Some(InfoParser.SatelliteList(satellites))
    ensures Get(r, "main_gnss_metrics") == Some(Obj(metrics))
  {
    var r := [("raw_data", Obj(raw)), ("satellites", InfoParser.SatelliteList(satellites)),
              ("parse_time", Str(parseTime)), ("main_gnss_metrics", Obj(metrics))];
    InfoParser.KeyedBy(r, FlexibleKeys);
    assert Get(r, FlexibleKeys[2]) == Some(r[2].1) && Get(r, FlexibleKeys[3]) == Some(r[3].1);
    r
  }

  /**
   * `parse_flexible`: the raw key/value pairs, the satellite table read with
   * case-sensitive anchors and prefixes, the parse time, and the metrics; the
   * metrics' `ValueError` is not caught. The clock reading is `parseTime`.
   */
  function FlexibleRecord(content: string, parseTime: string): (r: Result<Fields>)
    ensures r.Failure? <==> LogMetrics(content).Failure?
  {
    match LogMetrics(content)
    case Failure(e) => Failure(e)
    case Success(metrics) => Success(Flexible(RawData(content), SatelliteTable(content, LogSystems, false), parseTime, metrics))
  }

  /** `parse_flexible`: the metrics first, then the raw-data loop, then the table loop. */
  method ParseFlexible(content: string, parseTime: string) returns (r: Result<Fields>)
    ensures r == FlexibleRecord(content, parseTime)
  {
    var metrics := ExtractGnssMetrics(content);
    if metrics.Failure? {
      return Failure(metrics.error);
    }
    var raw := ExtractRawData(content);
    var satellites := ExtractSatellites(content, LogSystems, false);
    r := Success(Flexible(raw, satellites, parseTime, metrics.value));
  }

  /**
   * The record has its four sections in creation order; the raw data keeps
   * the last value of each key; there are at most 49 satellites, none when
   * the capture has no "Const." (in that exact case); the metrics are those
   * of the state section.
   */
  lemma FlexibleSections(content: string, parseTime: string, k: string)
    requires FlexibleRecord(content, parseTime).Success?
    ensures Keys(FlexibleRecord(content, parseTime).value) == FlexibleKeys
    ensures Get(FlexibleRecord(content, parseTime).value, "parse_time") == Some(Str(parseTime))
    ensures Get(FlexibleRecord(content, parseTime).value, "main_gnss_metrics") == Some(Obj(LogMetrics(content).value))
    ensures var raw := Get(FlexibleRecord(content, parseTime).value, "raw_data");
            raw.Some? && raw.value.Obj? && Get(raw.value.fields, k) == LastGet(RawWrites(content, 0), k)
    ensures var sats := Get(FlexibleRecord(content, parseTime).value, "satellites");
            sats.Some? && sats.value.Arr? && |sats.value.items| <= 49 &&
            (Find(content, "Const.").None? ==> sats.value.items == [])
  {
    RawDataLastWins(content, k);
  }

  /**
   * Every satellite of the record is the row of a table line, within the
   * first 49 after the header and before the line that ends the table, that
   * starts with "GPS", "GLONASS", "Galileo" or "BeiDou" in exactly that case
   * and splits into at least five tokens.
   */
  lemma FlexibleSatelliteOrigin(content: string, n: nat) returns (l: nat)
    requires n < |SatelliteTable(content, LogSystems, false)|
    ensures Find(content, "Const.").Some?
    ensures var lines := Split(content[Find(content, "Const.").value..], '\n');
            var stop := if |lines| < 50 then |lines| else 50;
            1 <= l < stop && RowLine(lines[l], LogSystems, false) &&
            SatelliteTable(content, LogSystems, false)[n] == LineRow(WsSplit(Strip(lines[0])), lines[l])
  {
    var start := Find(content, "Const.").value;
    var lines := Split(content[start..], '\n');
    var stop := if |lines| < 50 then |lines| else 50;
    l := SatellitesFromOrigin(lines, WsSplit(Strip(lines[0])), 1, stop, LogSystems, false, n);
  }
}
