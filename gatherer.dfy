/**
 * `tools/gnss_gatherer.py`: the stand-alone gatherer's reading of one
 * `show gnss info` output. A line loop tracks which part of the output it is
 * in (the receiver state, the post-processor block, the last acquired
 * location) and overwrites fields of three dictionaries whose every field
 * starts as "". A second loop counts the satellites the table marks as used.
 * Any exception ends the reading and returns the dictionaries as filled so
 * far. The host name is made safe for file names.
 */
module Gatherer {
  import opened Common
  import opened Text
  import opened Json
  import opened Scan

  // ---------------------------------------------------------------- lines

  /** The characters `str.splitlines` breaks a text at. */
  predicate LineBreak(c: char)
  {
    c == '\n' || c == '\r' || c == '\U{000B}' || c == '\U{000C}' || c == '\U{001C}' || c == '\U{001D}'
    || c == '\U{001E}' || c == '\U{0085}' || c == '\U{2028}' || c == '\U{2029}'
  }

  /** The offset of the first line break in `s`. */
  function FirstBreak(s: string): (r: Option<nat>)
    ensures r.Some? ==> r.value < |s| && LineBreak(s[r.value])
    ensures r.Some? ==> forall j :: 0 <= j < r.value ==> !LineBreak(s[j])
    ensures r.None? ==> forall j :: 0 <= j < |s| ==> !LineBreak(s[j])
  {
    if |s| == 0 then None
    else if LineBreak(s[0]) then Some(0)
    else match FirstBreak(s[1..])
      case None => None
      case Some(k) => Some(k + 1)
  }

  /**
   * `str.splitlines()`: the text cut at every line break, "\r\n" counting as
   * one, with no piece after a final break.
   */
  function SplitLines(s: string): (r: seq<string>)
    ensures forall k :: 0 <= k < |r| ==> forall j :: 0 <= j < |r[k]| ==> !LineBreak(r[k][j])
    ensures |s| == 0 <==> |r| == 0
    decreases |s|
  {
    if |s| == 0 then []
    else match FirstBreak(s)
      case None => [s]
      case Some(i) =>
        var next := if s[i] == '\r' && i + 1 < |s| && s[i + 1] == '\n' then i + 2 else i + 1;
        [s[..i]] + SplitLines(s[next..])
  }

  // ---------------------------------------------------------------- dictionaries

  /** The part of the output a line belongs to. */
  datatype Section = Main | PostProcessor | LastLocation

  const MainKeys: seq<string> := [
    "state", "external_antenna", "fix_type", "valid_fix", "latitude", "longitude",
    "altitude_msl", "altitude_hae", "horacc", "vertacc", "satellite_count",
    "satellites_used", "hdop", "vdop", "pdop"]

  const PpKeys: seq<string> := [
    "latitude", "longitude", "horacc", "hdop", "major_axis", "minor_axis", "orientation",
    "altitude_msl", "altitude_hae", "vertacc"]

  const LastKeys: seq<string> := PpKeys + ["derivation_type", "age"]

  /** A dictionary whose every field is "". */
  function Blank(keys: seq<string>): (r: Fields)
    ensures Keys(r) == keys
    ensures forall k :: k in keys ==> Get(r, k) == Some(Str(""))
  {
    var r := seq(|keys|, i requires 0 <= i < |keys| => (keys[i], Str("")));
    assert Keys(r) == keys;
    forall k | k in keys ensures Get(r, k) == Some(Str("")) {
      GetAllSame(r, k, Str(""));
    }
    r
  }

  /** In a dictionary whose every value is `v`, every key present gets `v`. */
  lemma {:induction false} GetAllSame(d: Fields, k: string, v: Value)
    requires k in Keys(d) && forall i :: 0 <= i < |d| ==> d[i].1 == v
    ensures Get(d, k) == Some(v)
  {
    if d[0].0 != k {
      assert Keys(d) == [d[0].0] + Keys(d[1..]);
      GetAllSame(d[1..], k, v);
    }
  }

  // ---------------------------------------------------------------- one line

  /** The assignments a line made, in order, and whether it then raised. */
  datatype Outcome = Outcome(writes: Fields, raised: bool)

  const Nothing: Outcome := Outcome([], false)

  /**
   * Assignments made one after another, where computing a value may raise
   * (`None`): every assignment before the first that raises is made.
   */
  function Until(ws: seq<(string, Option<Value>)>): (r: Outcome)
    ensures |r.writes| <= |ws|
    ensures forall i :: 0 <= i < |r.writes| ==> ws[i].1.Some? && r.writes[i] == (ws[i].0, ws[i].1.value)
    ensures !r.raised ==> |r.writes| == |ws|
    ensures r.raised ==> |r.writes| < |ws| && ws[|r.writes|].1.None?
    ensures r.raised <==> exists i :: 0 <= i < |ws| && ws[i].1.None?
  {
    if |ws| == 0 then Nothing
    else match ws[0].1
      case None => Outcome([], true)
      case Some(v) =>
        var rest := Until(ws[1..]);
        assert forall i :: 1 <= i < |ws| ==> ws[i] == ws[1..][i - 1];
        Outcome([(ws[0].0, v)] + rest.writes, rest.raised)
  }

  /** `tag\s+(k+)` at offset `i`: the run after the tag and at least one whitespace. */
  function SpacedRun(s: string, i: nat, tag: string, k: CharClass): (r: Option<string>)
    ensures r.Some? ==> |r.value| > 0 && forall j :: 0 <= j < |r.value| ==> InClass(r.value[j], k)
  {
    if !At(s, i, tag) then None
    else
      var a := i + |tag|;
      var q := SkipSpace(s, a);
      var e := RunEnd(s, q, k);
      if q > a && e > q then Some(s[q..e]) else None
  }

  /**
   * `float(re.search(tag + r"\s+([\d.]+)", line).group(1))`: `None` when the
   * search finds nothing (`AttributeError`) or `float()` refuses the capture.
   */
  function SpacedFloat(line: string, tag: string): (r: Option<Value>)
    ensures r.Some? ==> r.value.Num?
  {
    match Search(line, (s: string, i: nat) => SpacedRun(s, i, tag, DigitDot))
    case None => None
    case Some(g) =>
      match ParseFloat(g)
      case None => None
      case Some(x) => Some(Num(x))
  }

  /** `int(re.search(tag + r"\s+(\d+)", line).group(1))`: `None` when the search finds nothing. */
  function SpacedInt(line: string, tag: string): (r: Option<Value>)
    ensures r.Some? ==> r.value.Int? && r.value.i >= 0
  {
    match Search(line, (s: string, i: nat) => SpacedRun(s, i, tag, Digit))
    case None => None
    case Some(g) => Some(Int(DigitsValue(g)))
  }

  /** `float(parts[i])`: `None` on `IndexError` or `ValueError`. */
  function FloatAt(parts: seq<string>, i: nat): (r: Option<Value>)
    ensures r.Some? <==> i < |parts| && ParseFloat(parts[i]).Some?
  {
    if i < |parts| then
      match ParseFloat(parts[i])
      case None => None
      case Some(x) => Some(Num(x))
    else None
  }

  /** A line naming both "Latitude:" and "Longitude:": the second and fourth whitespace-separated words. */
  function Position(line: string): seq<(string, Option<Value>)>
  {
    var parts := Tokens(line);
    [("latitude", FloatAt(parts, 1)), ("longitude", FloatAt(parts, 3))]
  }

  function Altitude(line: string): seq<(string, Option<Value>)>
  {
    [("altitude_msl", SpacedFloat(line, "MSL:")), ("altitude_hae", SpacedFloat(line, "HAE:")),
     ("vertacc", SpacedFloat(line, "VertAcc:"))]
  }

  function Ellipse(line: string): seq<(string, Option<Value>)>
  {
    [("major_axis", SpacedFloat(line, "Major axis:")), ("minor_axis", SpacedFloat(line, "Minor axis:")),
     ("orientation", SpacedFloat(line, "Orientation:"))]
  }

  function Accuracy(line: string): seq<(string, Option<Value>)>
  {
    [("horacc", SpacedFloat(line, "HorAcc:")), ("hdop", SpacedFloat(line, "hDOP:"))]
  }

  function Dops(line: string): seq<(string, Option<Value>)>
  {
    [("pdop", SpacedFloat(line, "pDOP:")), ("hdop", SpacedFloat(line, "hDOP:")), ("vdop", SpacedFloat(line, "vDOP:"))]
  }

  /** 2 for a 3D fix, 1 for a 2D fix, 0 otherwise. */
  function FixCode(line: string): (r: int)
    ensures r == 2 <==> Contains(line, "3D-Fix")
    ensures r == 1 <==> !Contains(line, "3D-Fix") && Contains(line, "2D-Fix")
    ensures r == 0 <==> !Contains(line, "3D-Fix") && !Contains(line, "2D-Fix")
  {
    if Contains(line, "3D-Fix") then 2 else if Contains(line, "2D-Fix") then 1 else 0
  }

  /** A 0/1 flag. */
  function Flag(b: bool): Value
  {
    Int(if b then 1 else 0)
  }

  /** A stripped line of the receiver-state part, through the `if`/`elif` chain. */
  function MainLine(line: string): Outcome
  {
    if Contains(line, "GnssState:") then Outcome([("state", Flag(Contains(line, "Started")))], false)
    else if Contains(line, "ExternalAntenna:") then
      Outcome([("external_antenna", Flag(Contains(Lower(line), "true")))], false)
    else if Contains(line, "Fix:") then
      Outcome([("fix_type", Int(FixCode(line))), ("valid_fix", Flag(Contains(line, "ValidFix: true")))], false)
    else if Contains(line, "Latitude:") && Contains(line, "Longitude:") then Until(Position(line))
    else if Contains(line, "Altitude MSL:") then Until(Altitude(line))
    else if Contains(line, "NumSat:") then Until([("satellite_count", SpacedInt(line, "NumSat:"))])
    else if Contains(line, "pDOP:") then Until(Dops(line))
    else Nothing
  }

  /** The four branches the post-processor and last-location parts share, if one applies. */
  function LocationLine(line: string): Option<Outcome>
  {
    if Contains(line, "Latitude:") && Contains(line, "Longitude:") then Some(Until(Position(line)))
    else if Contains(line, "Altitude MSL:") then Some(Until(Altitude(line)))
    else if Contains(line, "Major axis:") then Some(Until(Ellipse(line)))
    else if Contains(line, "HorAcc:") then Some(Until(Accuracy(line)))
    else None
  }

  /** The code of a derivation type: 1 for "GNSS", 2 for "GNSS_PostProcessor", none for anything else. */
  function DerivationCode(d: string): (r: Option<int>)
    ensures r == Some(1) <==> d == "GNSS"
    ensures r == Some(2) <==> d == "GNSS_PostProcessor"
    ensures r.Some? ==> r == Some(1) || r == Some(2)
  {
    if d == "GNSS" then Some(1) else if d == "GNSS_PostProcessor" then Some(2) else None
  }

  /** What follows the last ':' of a line, stripped. */
  function AfterLastColon(line: string): string
  {
    Strip(LastPiece(line, ':'))
  }

  /** The "Derivation Type:" branch. */
  function DerivationLine(line: string): (r: Outcome)
    ensures !r.raised && |r.writes| <= 1
    ensures |r.writes| == 1 <==> DerivationCode(AfterLastColon(line)).Some?
    ensures |r.writes| == 1 ==> r.writes[0] == ("derivation_type", Int(DerivationCode(AfterLastColon(line)).value))
  {
    match DerivationCode(AfterLastColon(line))
    case Some(c) => Outcome([("derivation_type", Int(c))], false)
    case None => Nothing
  }

  /** `re.search(r"Time:\s*([\d-]+\s+[\d:]+)", line)`: the time stamp, if any. */
  function TimeStamp(line: string): Option<string>
  {
    Search(line, (s: string, i: nat) => LabelTimestamp(s, i, "Time:", false))
  }

  /**
   * A stripped line of the last-location part: the shared branches, then
   * "Derivation Type:", then "Time:", which only records the time stamp.
   */
  function LastLine(line: string, stamp: Option<string>): (Outcome, Option<string>)
  {
    match LocationLine(line)
    case Some(o) => (o, stamp)
    case None =>
      if Contains(line, "Derivation Type:") then (DerivationLine(line), stamp)
      else if Contains(line, "Time:") then
        (Nothing, match TimeStamp(line) case Some(t) => Some(t) case None => stamp)
      else (Nothing, stamp)
  }

  /** Every assignment in `ws` is to one of `keys`. */
  predicate Names(ws: seq<(string, Option<Value>)>, keys: seq<string>)
  {
    forall i :: 0 <= i < |ws| ==> ws[i].0 in keys
  }

  lemma UntilWithin(ws: seq<(string, Option<Value>)>, keys: seq<string>)
    requires Names(ws, keys)
    ensures Within(Until(ws).writes, keys)
  {
  }

  lemma PositionNames(line: string, keys: seq<string>)
    requires "latitude" in keys && "longitude" in keys
    ensures Within(Until(Position(line)).writes, keys)
  {
    UntilWithin(Position(line), keys);
  }

  lemma AltitudeNames(line: string, keys: seq<string>)
    requires "altitude_msl" in keys && "altitude_hae" in keys && "vertacc" in keys
    ensures Within(Until(Altitude(line)).writes, keys)
  {
    UntilWithin(Altitude(line), keys);
  }

  lemma MainFlagsWithin(line: string)
    requires Contains(line, "GnssState:") || Contains(line, "ExternalAntenna:") || Contains(line, "Fix:")
    ensures Within(MainLine(line).writes, MainKeys)
  {
  }

  lemma MainMeasuresWithin(line: string)
    requires !(Contains(line, "GnssState:") || Contains(line, "ExternalAntenna:") || Contains(line, "Fix:"))
    requires !(Contains(line, "Latitude:") && Contains(line, "Longitude:")) && !Contains(line, "Altitude MSL:")
    ensures Within(MainLine(line).writes, MainKeys)
  {
    if Contains(line, "NumSat:") {
      UntilWithin([("satellite_count", SpacedInt(line, "NumSat:"))], MainKeys);
    } else if Contains(line, "pDOP:") {
      assert "pdop" in MainKeys && "hdop" in MainKeys && "vdop" in MainKeys;
      UntilWithin(Dops(line), MainKeys);
    }
  }

  /** A line of the receiver-state part only assigns fields the dictionary starts with. */
  lemma MainLineWithin(line: string)
    ensures Within(MainLine(line).writes, MainKeys)
  {
    if Contains(line, "GnssState:") || Contains(line, "ExternalAntenna:") || Contains(line, "Fix:") {
      MainFlagsWithin(line);
    } else if Contains(line, "Latitude:") && Contains(line, "Longitude:") {
      PositionNames(line, MainKeys);
    } else if Contains(line, "Altitude MSL:") {
      AltitudeNames(line, MainKeys);
    } else {
      MainMeasuresWithin(line);
    }
  }

  /** The shared location branches only assign fields both location dictionaries start with. */
  lemma LocationLineWithin(line: string)
    ensures LocationLine(line).Some? ==> Within(LocationLine(line).value.writes, PpKeys)
  {
    if Contains(line, "Latitude:") && Contains(line, "Longitude:") {
      PositionNames(line, PpKeys);
    } else if Contains(line, "Altitude MSL:") {
      AltitudeNames(line, PpKeys);
    } else if Contains(line, "Major axis:") {
      UntilWithin(Ellipse(line), PpKeys);
    } else if Contains(line, "HorAcc:") {
      UntilWithin(Accuracy(line), PpKeys);
    }
  }

  // ---------------------------------------------------------------- the line loop

  /** The loop's state: the part it is in, the three dictionaries, the last time stamp, and whether it raised. */
  datatype Gathering = Gathering(section: Section, main: Fields, pp: Fields, last: Fields,
                                 stamp: Option<string>, raised: bool)

  function Start(): Gathering
  {
    Gathering(Main, Blank(MainKeys), Blank(PpKeys), Blank(LastKeys), None, false)
  }

  predicate PpMarker(line: string) { Contains(line, "GNSS_PostProcessor:") }

  predicate LastMarker(line: string) { Contains(line, "Last Location Acquired:") }

  /** The part a marker line switches to; none for any other line. */
  function Marker(raw: string): (r: Option<Section>)
    ensures r != Some(Main)
  {
    var line := Strip(raw);
    if PpMarker(line) then Some(PostProcessor)
    else if LastMarker(line) then Some(LastLocation)
    else None
  }

  /** One pass of the line loop; after an exception nothing happens any more. */
  function Step(g: Gathering, raw: string): Gathering
  {
    var line := Strip(raw);
    if g.raised then g
    else if Marker(raw).Some? then g.(section := Marker(raw).value)
    else match g.section
      case Main =>
        var o := MainLine(line);
        g.(main := PutAll(g.main, o.writes), raised := o.raised)
      case PostProcessor =>
        var o := match LocationLine(line) case Some(o) => o case None => Nothing;
        g.(pp := PutAll(g.pp, o.writes), raised := o.raised)
      case LastLocation =>
        var (o, stamp) := LastLine(line, g.stamp);
        g.(last := PutAll(g.last, o.writes), stamp := stamp, raised := o.raised)
  }

  /** A left fold of `step` over `lines`, from `g`. */
  function Fold(g: Gathering, lines: seq<string>, step: (Gathering, string) -> Gathering): Gathering
  {
    if |lines| == 0 then g else step(Fold(g, lines[..|lines| - 1], step), lines[|lines| - 1])
  }

  /** The state after the line loop, started in `g`, has seen `lines`. */
  function RunFrom(g: Gathering, lines: seq<string>): Gathering
  {
    Fold(g, lines, Step)
  }

  /** The state after the line loop has seen `lines`. */
  function Run(lines: seq<string>): Gathering
  {
    RunFrom(Start(), lines)
  }

  lemma RunStep(g: Gathering, lines: seq<string>, i: nat)
    requires i < |lines|
    ensures RunFrom(g, lines[..i + 1]) == Step(RunFrom(g, lines[..i]), lines[i])
  {
    assert lines[..i + 1][..i] == lines[..i];
  }

  /** Once a line has raised, the rest of the output changes nothing. */
  lemma {:induction false} RunRaised(g: Gathering, lines: seq<string>, n: nat)
    requires n <= |lines| && RunFrom(g, lines[..n]).raised
    ensures RunFrom(g, lines) == RunFrom(g, lines[..n])
    decreases |lines| - n
  {
    if n < |lines| {
      RunStep(g, lines, n);
      RunRaised(g, lines, n + 1);
    } else {
      assert lines[..n] == lines;
    }
  }

  /** The dictionaries hold exactly the fields they start with, in the same order. */
  predicate Shaped(g: Gathering)
  {
    Keys(g.main) == MainKeys && Keys(g.pp) == PpKeys && Keys(g.last) == LastKeys
  }

  lemma LastLineWithin(line: string, stamp: Option<string>)
    ensures Within(LastLine(line, stamp).0.writes, LastKeys)
  {
    LocationLineWithin(line);
    assert forall k :: k in PpKeys ==> k in LastKeys;
    assert "derivation_type" in LastKeys;
  }

  /** No line adds a field to, or removes one from, any of the three dictionaries. */
  lemma StepShaped(g: Gathering, raw: string)
    requires Shaped(g)
    ensures Shaped(Step(g, raw))
  {
    var line := Strip(raw);
    if !g.raised && Marker(raw).None? {
      match g.section
      case Main =>
        MainLineWithin(line);
        PutAllKeep(g.main, MainLine(line).writes);
      case PostProcessor =>
        LocationLineWithin(line);
        assert Within(Nothing.writes, Keys(g.pp));
        PutAllKeep(g.pp, (match LocationLine(line) case Some(o) => o case None => Nothing).writes);
      case LastLocation =>
        LastLineWithin(line, g.stamp);
        PutAllKeep(g.last, LastLine(line, g.stamp).0.writes);
    }
  }

  lemma {:induction false} RunShaped(lines: seq<string>)
    ensures Shaped(Run(lines))
    decreases |lines|
  {
    if |lines| > 0 {
      RunShaped(lines[..|lines| - 1]);
      StepShaped(Run(lines[..|lines| - 1]), lines[|lines| - 1]);
    }
  }

  /**
   * The part the last line `marker` recognises names; the receiver state
   * before any such line.
   */
  function SectionAfter(lines: seq<string>, marker: string -> Option<Section>): Section
  {
    if |lines| == 0 then Main
    else match marker(lines[|lines| - 1])
      case Some(s) => s
      case None => SectionAfter(lines[..|lines| - 1], marker)
  }

  /** The part the last marker line names: the receiver state before any marker. */
  function SectionOf(lines: seq<string>): Section
  {
    SectionAfter(lines, Marker)
  }

  /** A line never undoes an exception, and otherwise moves the loop only at a marker line. */
  lemma StepSection()
    ensures forall g, raw :: !Step(g, raw).raised ==> !g.raised
    ensures forall g, raw :: !Step(g, raw).raised ==>
      (Step(g, raw).section == match Marker(raw) case Some(s) => s case None => g.section)
  {
  }

  lemma {:induction false} FoldSection(g: Gathering, lines: seq<string>, step: (Gathering, string) -> Gathering,
                                       marker: string -> Option<Section>)
    requires g.section == Main
    requires forall h, x :: !step(h, x).raised ==> !h.raised
    requires forall h, x :: !step(h, x).raised ==>
      (step(h, x).section == match marker(x) case Some(s) => s case None => h.section)
    ensures !Fold(g, lines, step).raised ==> Fold(g, lines, step).section == SectionAfter(lines, marker)
    decreases |lines|
  {
    if |lines| > 0 {
      FoldSection(g, lines[..|lines| - 1], step, marker);
    }
  }

  /**
   * Until a line raises, the part the loop is in is the one the last marker
   * line named; before the first marker it is the receiver state.
   */
  lemma RunSection(lines: seq<string>)
    ensures !Run(lines).raised ==> Run(lines).section == SectionOf(lines)
  {
    StepSection();
    FoldSection(Start(), lines, Step, Marker);
  }

  lemma {:induction false} SectionAfterMain(lines: seq<string>, marker: string -> Option<Section>)
    requires forall x :: marker(x) != Some(Main)
    ensures SectionAfter(lines, marker) == Main <==> forall i :: 0 <= i < |lines| ==> marker(lines[i]).None?
    decreases |lines|
  {
    if |lines| > 0 {
      var n := |lines| - 1;
      SectionAfterMain(lines[..n], marker);
      assert forall i :: 0 <= i < n ==> lines[..n][i] == lines[i];
    }
  }

  /** The loop stays in the receiver state exactly as long as no marker line has been seen. */
  lemma SectionMain(lines: seq<string>)
    ensures SectionOf(lines) == Main <==> forall i :: 0 <= i < |lines| ==> Marker(lines[i]).None?
  {
    SectionAfterMain(lines, Marker);
  }

  /** A marker line switches part and assigns nothing. */
  lemma MarkerConsumed(g: Gathering, raw: string)
    requires !g.raised && Marker(raw).Some?
    ensures Step(g, raw).main == g.main && Step(g, raw).pp == g.pp && Step(g, raw).last == g.last
    ensures Step(g, raw).stamp == g.stamp && !Step(g, raw).raised
    ensures Step(g, raw).section == Marker(raw).value
  {
  }

  /**
   * In the receiver-state part, a line with "Fix:" that the "GnssState:" and
   * "ExternalAntenna:" branches do not take overwrites both `fix_type` and
   * `valid_fix`, and nothing else.
   */
  lemma FixLineOverwrites(g: Gathering, raw: string)
    requires !g.raised && g.section == Main && UniqueKeys(g.main)
    requires Marker(raw).None?
    requires var line := Strip(raw); (Contains(line, "Fix:")
      && !Contains(line, "GnssState:") && !Contains(line, "ExternalAntenna:"))
    ensures var line := Strip(raw); var m := Step(g, raw).main;
      (Get(m, "fix_type") == Some(Int(FixCode(line))) &&
       Get(m, "valid_fix") == Some(Flag(Contains(line, "ValidFix: true"))) &&
       forall k :: k != "fix_type" && k != "valid_fix" ==> Get(m, k) == Get(g.main, k))
    ensures Step(g, raw).pp == g.pp && Step(g, raw).last == g.last && !Step(g, raw).raised
  {
    var line := Strip(raw);
    var w := [("fix_type", Int(FixCode(line))), ("valid_fix", Flag(Contains(line, "ValidFix: true")))];
    assert MainLine(line) == Outcome(w, false);
    PutAllPair(g.main, w);
  }

  /** Where "p" occurs in `s`, so does every piece of `p`. */
  lemma ContainsPiece(s: string, p: string, k: nat, q: string)
    requires Contains(s, p) && At(p, k, q)
    ensures Contains(s, q)
  {
    var i := Find(s, p).value;
    assert At(s, i, p);
    SliceOfSlice(s, i, i + |p|, k, |q|);
    assert At(s, i + k, q);
    assert AtCase(s, i + k, q, false);
  }

  /**
   * "ValidFix: true" holds "Fix:", so a line stating only that the fix is
   * valid takes the fix branch: `valid_fix` becomes 1 and `fix_type` is reset
   * to 0 unless the same line also names a 3D or 2D fix.
   */
  lemma ValidFixLine(line: string)
    requires Contains(line, "ValidFix: true") && !Contains(line, "GnssState:") && !Contains(line, "ExternalAntenna:")
    requires !Contains(line, "3D-Fix") && !Contains(line, "2D-Fix")
    ensures MainLine(line) == Outcome([("fix_type", Int(0)), ("valid_fix", Int(1))], false)
  {
    assert "ValidFix: true"[5..9] == "Fix:";
    ContainsPiece(line, "ValidFix: true", 5, "Fix:");
  }

  /**
   * In the last-location part, a "Derivation Type:" line that none of the
   * location branches takes stores 1 for "GNSS" and 2 for
   * "GNSS_PostProcessor", and leaves the dictionary as it is otherwise.
   */
  lemma DerivationStep(g: Gathering, raw: string)
    requires !g.raised && g.section == LastLocation && UniqueKeys(g.last)
    requires Marker(raw).None?
    requires var line := Strip(raw); (LocationLine(line).None?
      && Contains(line, "Derivation Type:"))
    ensures var d := AfterLastColon(Strip(raw)); var l := Step(g, raw).last;
      ((d == "GNSS" ==> Get(l, "derivation_type") == Some(Int(1))) &&
       (d == "GNSS_PostProcessor" ==> Get(l, "derivation_type") == Some(Int(2))) &&
       (d != "GNSS" && d != "GNSS_PostProcessor" ==> l == g.last))
    ensures Step(g, raw).main == g.main && Step(g, raw).pp == g.pp && !Step(g, raw).raised
  {
  }

  /**
   * A line that raises ends the loop: the dictionaries keep every
   * assignment made before it, including the ones the raising line made
   * before its failing conversion.
   */
  lemma RaisedKeepsPartial(output: string, age: string -> Option<real>, i: nat)
    requires var lines := SplitLines(output); i < |lines| && !Run(lines[..i]).raised && Run(lines[..i + 1]).raised
    ensures var g := Run(SplitLines(output)[..i + 1]); Gather(output, age) == (g.main, g.pp, g.last)
  {
    var lines := SplitLines(output);
    RunRaised(Start(), lines, i + 1);
  }

  // ---------------------------------------------------------------- used satellites

  const TableHeader: string := "Const.    SatId CNO   Elev. Azim. Signal  Used  Health"

  /** A line that ends the satellite table: blank, or naming the post-processor. */
  predicate TableEnd(line: string)
  {
    |Strip(line)| == 0 || Contains(line, "GNSS_PostProcessor")
  }

  /** Every character of a word is a word character. */
  predicate WordChars(w: string)
  {
    |w| > 0 && forall j :: 0 <= j < |w| ==> IsWordChar(w[j])
  }

  /**
   * `\w+\s+\d+\s+\d+\s+\d+\s+\d+\s+\w+\s+Yes` matched from word `t`: a word
   * ending in a word character, four words of digits, a word of word
   * characters, and a word that starts with "Yes".
   */
  predicate UsedFrom(words: seq<string>, t: nat)
    requires t + 7 <= |words|
  {
    |words[t]| > 0 && IsWordChar(words[t][|words[t]| - 1]) &&
    IsDigits(words[t + 1]) && IsDigits(words[t + 2]) && IsDigits(words[t + 3]) && IsDigits(words[t + 4]) &&
    WordChars(words[t + 5]) && StartsWith(words[t + 6], "Yes")
  }

  /** A table row of a satellite that is used: the pattern matches somewhere in the line. */
  predicate UsedRow(line: string)
  {
    var words := Tokens(line);
    exists t :: 0 <= t && t + 7 <= |words| && UsedFrom(words, t)
  }

  /** The used rows counted from line `i` on, inside the table or still looking for its header. */
  function CountFrom(lines: seq<string>, i: nat, inTable: bool): nat
    decreases |lines| - i
  {
    if i >= |lines| then 0
    else if !inTable then CountFrom(lines, i + 1, Contains(lines[i], TableHeader))
    else if TableEnd(lines[i]) then 0
    else (if UsedRow(lines[i]) then 1 else 0) + CountFrom(lines, i + 1, true)
  }

  /** The `satellites_used` count of an output's lines. */
  function UsedCount(lines: seq<string>): nat
  {
    CountFrom(lines, 0, false)
  }

  /** The second loop: `in_table` starts false and a row ending the table breaks it. */
  method CountUsed(lines: seq<string>) returns (used: nat)
    ensures used == UsedCount(lines)
  {
    used := 0;
    var inTable := false;
    var i := 0;
    while i < |lines|
      invariant i <= |lines|
      invariant used + CountFrom(lines, i, inTable) == UsedCount(lines)
      decreases |lines| - i
    {
      if inTable {
        if TableEnd(lines[i]) {
          break;
        }
        if UsedRow(lines[i]) {
          used := used + 1;
        }
      } else if Contains(lines[i], TableHeader) {
        inTable := true;
      }
      i := i + 1;
    }
  }

  /** The first line at or after `i` holding the exact table header. */
  function HeaderFrom(lines: seq<string>, i: nat): (r: Option<nat>)
    ensures r.Some? ==> i <= r.value < |lines| && Contains(lines[r.value], TableHeader)
    ensures r.Some? ==> forall j :: i <= j < r.value ==> !Contains(lines[j], TableHeader)
    ensures r.None? ==> forall j :: i <= j < |lines| ==> !Contains(lines[j], TableHeader)
    decreases |lines| - i
  {
    if i >= |lines| then None
    else if Contains(lines[i], TableHeader) then Some(i)
    else HeaderFrom(lines, i + 1)
  }

  /** The first line at or after `i` that ends the table, or the end of the output. */
  function TableStop(lines: seq<string>, i: nat): (r: nat)
    requires i <= |lines|
    ensures i <= r <= |lines|
    ensures forall j :: i <= j < r ==> !TableEnd(lines[j])
    ensures r < |lines| ==> TableEnd(lines[r])
  {
    FirstFrom(lines, i, |lines|, EndOf())
  }

  function EndOf(): string -> bool { line => TableEnd(line) }

  /** How many of `rows` are rows of used satellites. */
  function UsedRows(rows: seq<string>): nat
  {
    if |rows| == 0 then 0 else (if UsedRow(rows[0]) then 1 else 0) + UsedRows(rows[1..])
  }

  /** The table's rows: the lines after the first header line, up to the first line that ends the table. */
  function TableRows(lines: seq<string>): seq<string>
  {
    match HeaderFrom(lines, 0)
    case None => []
    case Some(h) => lines[h + 1..TableStop(lines, h + 1)]
  }

  lemma {:induction false} CountInTable(lines: seq<string>, i: nat)
    requires i <= |lines|
    ensures CountFrom(lines, i, true) == UsedRows(lines[i..TableStop(lines, i)])
    decreases |lines| - i
  {
    if i < |lines| && !TableEnd(lines[i]) {
      CountInTable(lines, i + 1);
      assert lines[i..TableStop(lines, i)][1..] == lines[i + 1..TableStop(lines, i + 1)];
    }
  }

  lemma {:induction false} CountBeforeTable(lines: seq<string>, i: nat)
    requires i <= |lines|
    ensures CountFrom(lines, i, false) ==
      match HeaderFrom(lines, i) case None => 0 case Some(h) => CountFrom(lines, h + 1, true)
    decreases |lines| - i
  {
    if i < |lines| && !Contains(lines[i], TableHeader) {
      CountBeforeTable(lines, i + 1);
    }
  }

  /**
   * `satellites_used` is the number of rows of used satellites in the table:
   * the lines after the first exact header line, up to the first blank line
   * or line naming the post-processor.
   */
  lemma UsedCountIsTable(lines: seq<string>)
    ensures UsedCount(lines) == UsedRows(TableRows(lines))
    ensures HeaderFrom(lines, 0).None? ==> UsedCount(lines) == 0
  {
    CountBeforeTable(lines, 0);
    if HeaderFrom(lines, 0).Some? {
      CountInTable(lines, HeaderFrom(lines, 0).value + 1);
    }
  }

  // ---------------------------------------------------------------- the reading

  /** The age of the last location, when a time stamp was seen and `age` can compute one. */
  function WithAge(last: Fields, stamp: Option<string>, age: string -> Option<real>): Fields
  {
    match stamp
    case None => last
    case Some(t) =>
      if t == "" then last
      else match age(t)
        case None => last
        case Some(a) => Put(last, "age", Num(a))
  }

  /**
   * `parse_gnss_info`: the three dictionaries after the line loop; when no
   * line raised, the last location's age and the used-satellite count are
   * then filled in. `age` stands for parsing the time stamp and subtracting
   * it from the clock (`None` when the time stamp does not parse).
   */
  function Gather(output: string, age: string -> Option<real>): (Fields, Fields, Fields)
  {
    var lines := SplitLines(output);
    var g := Run(lines);
    if g.raised then (g.main, g.pp, g.last)
    else (Put(g.main, "satellites_used", Int(UsedCount(lines))), g.pp, WithAge(g.last, g.stamp, age))
  }

  /** One line of the loop, on the loop's variables: the marker lines switch part, the others fill a dictionary. */
  method ReadLine(section: Section, main: Fields, pp: Fields, last: Fields, stamp: Option<string>, raw: string)
    returns (section': Section, main': Fields, pp': Fields, last': Fields, stamp': Option<string>, raised: bool)
    ensures Gathering(section', main', pp', last', stamp', raised)
         == Step(Gathering(section, main, pp, last, stamp, false), raw)
  {
    var line := Strip(raw);
    section', main', pp', last', stamp', raised := section, main, pp, last, stamp, false;
    var marker := Marker(raw);
    if marker.Some? {
      section' := marker.value;
    } else if section == Main {
      var o := MainLine(line);
      main', raised := PutAll(main, o.writes), o.raised;
    } else if section == PostProcessor {
      var found := LocationLine(line);
      var o := if found.Some? then found.value else Nothing;
      pp', raised := PutAll(pp, o.writes), o.raised;
    } else {
      var r := LastLine(line, stamp);
      last', stamp', raised := PutAll(last, r.0.writes), r.1, r.0.raised;
    }
  }

  /**
   * The line loop of `parse_gnss_info`; it stops at the first line that
   * raises.
   */
  method ReadLines(g: Gathering, lines: seq<string>)
    returns (section: Section, main: Fields, pp: Fields, last: Fields, stamp: Option<string>, raised: bool)
    requires !g.raised
    ensures Gathering(section, main, pp, last, stamp, raised) == RunFrom(g, lines)
  {
    section, main, pp, last, stamp, raised := g.section, g.main, g.pp, g.last, g.stamp, false;
    var i := 0;
    while i < |lines|
      invariant i <= |lines|
      invariant RunFrom(g, lines[..i]) == Gathering(section, main, pp, last, stamp, false)
    {
      RunStep(g, lines, i);
      section, main, pp, last, stamp, raised := ReadLine(section, main, pp, last, stamp, lines[i]);
      if raised {
        RunRaised(g, lines, i + 1);
        return;
      }
      i := i + 1;
    }
    assert lines[..i] == lines;
  }

  /**
   * `parse_gnss_info`: the line loop, then, when no line raised, the
   * used-satellite count and the age of the last location.
   */
  method ParseGnssInfo(output: string, age: string -> Option<real>) returns (main: Fields, pp: Fields, last: Fields)
    ensures (main, pp, last) == Gather(output, age)
  {
    var lines := SplitLines(output);
    var section, stamp, raised;
    section, main, pp, last, stamp, raised := ReadLines(Start(), lines);
    if raised {
      return;
    }
    var used := CountUsed(lines);
    main := Put(main, "satellites_used", Int(used));
    last := WithAge(last, stamp, age);
  }

  /** The dictionaries `parse_gnss_info` returns have exactly the fields they start with, in order. */
  lemma GatherKeys(output: string, age: string -> Option<real>)
    ensures Keys(Gather(output, age).0) == MainKeys
    ensures Keys(Gather(output, age).1) == PpKeys
    ensures Keys(Gather(output, age).2) == LastKeys
  {
    var lines := SplitLines(output);
    RunShaped(lines);
    FinishKeys(Run(lines), UsedCount(lines), age);
  }

  /** Filling in the count and the age replaces fields already present. */
  lemma FinishKeys(g: Gathering, used: nat, age: string -> Option<real>)
    requires Shaped(g)
    ensures Keys(Put(g.main, "satellites_used", Int(used))) == MainKeys
    ensures Keys(WithAge(g.last, g.stamp, age)) == LastKeys
  {
    assert "satellites_used" in MainKeys;
    assert "age" in LastKeys;
  }

  // ---------------------------------------------------------------- lines, once more

  /**
   * Where the only line break is "\n" and the text does not end in one,
   * joining the lines with "\n" gives the text back.
   */
  lemma {:induction false} SplitLinesJoin(s: string)
    requires forall j :: 0 <= j < |s| && LineBreak(s[j]) ==> s[j] == '\n'
    requires |s| == 0 || s[|s| - 1] != '\n'
    ensures Join(SplitLines(s), '\n') == s
    decreases |s|
  {
    if |s| > 0 {
      match FirstBreak(s)
      case None =>
      case Some(i) =>
        var rest := s[i + 1..];
        assert s[i] == '\n';
        assert |rest| > 0;
        assert forall j :: 0 <= j < |rest| ==> rest[j] == s[i + 1 + j];
        SplitLinesJoin(rest);
        assert s == s[..i] + ['\n'] + rest;
    }
  }

  // ---------------------------------------------------------------- file names

  /** `host.replace(':', '_').replace('/', '_')`. */
  function SafeHost(host: string): (r: string)
    ensures |r| == |host|
    ensures forall i :: 0 <= i < |host| ==> r[i] == if host[i] == ':' || host[i] == '/' then '_' else host[i]
    ensures ':' !in r && '/' !in r
  {
    var once := ReplaceChar(host, ':', "_");
    ReplaceSingle(host, ':', '_');
    ReplaceSingle(once, '/', '_');
    ReplaceKeeps(once, '/', "_", ':');
    ReplaceChar(once, '/', "_")
  }

  /** `os.path.join(a, b)` on POSIX paths. */
  function PathJoin(a: string, b: string): (r: string)
    ensures |r| >= |b| && r[|r| - |b|..] == b
    ensures StartsWith(b, "/") ==> r == b
    ensures !StartsWith(b, "/") ==> |r| >= |a| + |b| && r[..|a|] == a
  {
    if StartsWith(b, "/") then b
    else if |a| == 0 || a[|a| - 1] == '/' then a + b
    else a + "/" + b
  }

  /** The file name `create_filename` joins to the directory. */
  function DataName(prefix: string, host: string, ext: string, timestamp: string): string
  {
    prefix + "_" + SafeHost(host) + "_" + timestamp + "." + ext
  }

  /**
   * `create_filename`: `<prefix>_<safe host>_<timestamp>.<ext>` in `dir`; the
   * host part holds neither ':' nor '/', so it cannot name another directory.
   */
  function CreateFilename(dir: string, prefix: string, host: string, ext: string, timestamp: string): (r: string)
    ensures var name := DataName(prefix, host, ext, timestamp);
      |r| >= |name| && r[|r| - |name|..] == name
    ensures var n := |prefix| + 1;
      var name := DataName(prefix, host, ext, timestamp);
      name[n..n + |host|] == SafeHost(host) && '/' !in name[n..n + |host|]
  {
    var name := DataName(prefix, host, ext, timestamp);
    assert name[|prefix| + 1..|prefix| + 1 + |host|] == SafeHost(host);
    PathJoin(dir, name)
  }

  /** The file name `latest_json_filename` joins to the data directory. */
  function LatestName(host: string): (r: string)
    ensures |r| > 0 && r[0] == 'l' && '/' !in r
  {
    var r := "latest_gnss_data_" + SafeHost(host) + ".json";
    assert forall i :: 0 <= i < |r| ==> r[i] != '/' by {
      assert '/' !in "latest_gnss_data_" && '/' !in ".json";
    }
    r
  }

  /** `latest_json_filename`: `latest_gnss_data_<safe host>.json` in `dataDir`. */
  function LatestJsonFilename(dataDir: string, host: string): (r: string)
    ensures var name := LatestName(host); |r| >= |name| && r[|r| - |name|..] == name
    ensures |r| >= |dataDir| && r[..|dataDir|] == dataDir
  {
    assert LatestName(host)[0..1] != "/";
    PathJoin(dataDir, LatestName(host))
  }
}
