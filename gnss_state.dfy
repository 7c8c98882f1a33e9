/**
 * The "main" and "gnss_state" sections of a parsed `show gnss info` capture:
 * the AP name taken from the CLI prompt (with hostname-truncation recovery),
 * the `show clock` time, the "No GNSS detected" short cut, and the receiver
 * state read from the text between "GnssState:" and the satellite table.
 */
module GnssState {
  import opened Common
  import opened Text
  import opened Json
  import opened Scan
  import BaseParser

  const MainKeys: seq<string> := ["main_ap_name", "show_clock_time"]

  const StateKeys: seq<string> := [
    "no_gnss_detected", "state", "external_antenna", "fix_type", "valid_fix",
    "gnss_fix_time", "last_fix_time", "latitude", "longitude", "horacc",
    "horacc_hdop", "altitude_msl", "altitude_hae", "vertacc", "numsat",
    "rangeres", "gpgstrms", "satellitecount", "uncertainty_ellipse_major_axis",
    "uncertainty_ellipse_minor_axis", "uncertainty_ellipse_orientation",
    "pdop", "hdop", "vdop", "ndop", "edop", "gdop", "tdop"]

  /** The main section before extraction: every field `None`. */
  function DefaultMain(): (r: Fields)
    ensures Keys(r) == MainKeys
  {
    NullFields(MainKeys)
  }

  /** The state section before extraction: `no_gnss_detected` false, every other field `None`. */
  function DefaultState(): Fields
  {
    Put(NullFields(StateKeys), "no_gnss_detected", Bool(false))
  }

  /** The default state section: the schema's keys in order, the flag false, every other field `None`. */
  lemma DefaultStateShape()
    ensures Keys(DefaultState()) == StateKeys
    ensures Get(DefaultState(), "no_gnss_detected") == Some(Bool(false))
    ensures forall k :: k in StateKeys && k != "no_gnss_detected" ==> Get(DefaultState(), k) == Some(Null)
  {
    assert StateKeys[0] == "no_gnss_detected";
  }

  // ---------------------------------------------------------------- AP name

  /** `(?:^|\n)([^\n#]+)#show ` (any case) tried at offset `p`: the prompt text before `#`. */
  function PromptShowAt(s: string, p: nat): Option<string>
  {
    var starts := LineStarts(s, p);
    if |starts| > 0 && PromptShowFrom(s, starts[0]).Some? then PromptShowFrom(s, starts[0])
    else if |starts| > 1 then PromptShowFrom(s, starts[1])
    else None
  }

  function PromptShowFrom(s: string, g: nat): (r: Option<string>)
    ensures r.Some? ==> |r.value| > 0 && '#' !in r.value && '\n' !in r.value
  {
    match PromptEnd(s, g)
    case None => None
    case Some(e) => if AtCI(s, e + 1, "show ") then Some(s[g..e]) else None
  }

  /** Python's `s[:-n]`, which is empty when `n` is 0 or at least the length. */
  function CutEnd(s: string, n: nat): (r: string)
    ensures n == 0 ==> r == ""
    ensures 0 < n < |s| ==> r == s[..|s| - n]
  {
    if n == 0 || n >= |s| then "" else s[..|s| - n]
  }

  /**
   * A name may have been cut short when it holds a hyphen and its last
   * hyphen-separated piece has at most two characters.
   */
  predicate TruncationSuspected(name: string)
  {
    '-' in name && |LastPiece(name, '-')| <= 2
  }

  /**
   * `full` recovers a suspected-truncated `name`: it is longer and starts with
   * `name` less its last hyphen-separated piece.
   */
  predicate Replaces(name: string, full: string)
  {
    TruncationSuspected(name) && |full| > |name| && StartsWith(full, CutEnd(name, |LastPiece(name, '-')|))
  }

  /** `full` when it recovers `name`, `name` otherwise. */
  function PreferFull(name: string, full: string): (r: string)
    ensures r == name || (r == full && Replaces(name, full))
  {
    if Replaces(name, full) then full else name
  }

  /** The first `hostname: <x>` entry (any case), `<x>` a run of anything but whitespace and ','; stripped. */
  function HostnameEntry(content: string): Option<string>
  {
    match Search(content, (t: string, k: nat) => TagRun(t, k, "hostname: ", NonSpaceComma, true))
    case Some(full) => Some(Strip(full))
    case None => None
  }

  /** At most the first 32 characters (the Cisco limit on AP names). */
  function Cap32(s: string): (r: string)
    ensures |r| <= 32 && |r| <= |s| && r == s[..|r|]
    ensures |s| <= 32 ==> r == s
    ensures |r| == 0 <==> |s| == 0
  {
    if |s| > 32 then s[..32] else s
  }

  /**
   * `_extract_ap_name`: the stripped prompt of the first line reading
   * `<name>#show `, replaced by the `hostname: <x>` entry when that recovers
   * it, and cut to 32 characters; "" when no prompt is found. The value for
   * a found prompt is stated by `ExtractApNameFound`.
   */
  function ExtractApName(content: string): (r: string)
    ensures |r| <= 32
    ensures Search(content, PromptShowAt).None? ==> r == ""
  {
    match Search(content, PromptShowAt)
    case None => ""
    case Some(g) =>
      var name := Strip(g);
      var recovered := if TruncationSuspected(name) && HostnameEntry(content).Some?
                       then PreferFull(name, HostnameEntry(content).value) else name;
      Cap32(recovered)
  }

  /**
   * With the prompt `g` found: the name is the `hostname:` entry, cut to 32,
   * exactly when that entry recovers the stripped prompt, and the stripped
   * prompt, cut to 32, otherwise; it is empty exactly when the prompt is blank.
   */
  lemma ExtractApNameFound(content: string, g: string)
    requires Search(content, PromptShowAt) == Some(g)
    ensures HostnameEntry(content).Some? && Replaces(Strip(g), HostnameEntry(content).value) ==>
              ExtractApName(content) == Cap32(HostnameEntry(content).value)
    ensures !(HostnameEntry(content).Some? && Replaces(Strip(g), HostnameEntry(content).value)) ==>
              ExtractApName(content) == Cap32(Strip(g))
    ensures ExtractApName(content) == "" <==> Strip(g) == ""
  {
  }

  /**
   * The recovery `_extract_gnss_metrics` applies with the address the AP was
   * reached at: the name changes exactly when the first dot-separated label
   * of the address recovers it, and then becomes that label.
   */
  function RecoverApName(name: string, apAddress: string): (r: string)
    ensures r != name <==> |apAddress| > 0 && Replaces(name, FirstPiece(apAddress, '.'))
    ensures r != name ==> r == FirstPiece(apAddress, '.')
  {
    if |name| > 0 && |apAddress| > 0 then PreferFull(name, FirstPiece(apAddress, '.')) else name
  }

  /** A recovered name is not recovered again: the address's label never recovers itself. */
  lemma RecoverApNameIdempotent(name: string, apAddress: string)
    ensures RecoverApName(RecoverApName(name, apAddress), apAddress) == RecoverApName(name, apAddress)
  {
  }

  // ---------------------------------------------------------------- show clock

  /** `show clock\s*\n\s*\*([^\n]+)` (any case) at offset `p`. */
  function ClockPromptAt(s: string, p: nat): (r: Option<string>)
    ensures r.Some? ==> |r.value| > 0 && '\n' !in r.value
  {
    if !AtCI(s, p, "show clock") then None
    else
      var a := p + 10;
      var q := SkipSpace(s, a);
      if '\n' in s[a..q] && q < |s| && s[q] == '*' then
        var e := RunEnd(s, q + 1, NonNewline);
        if e > q + 1 then Some(s[q + 1..e]) else None
      else None
  }

  /** `\*{5} show clock \*{5}([\s\S]+?)(?=\n\*{5} )` (any case) at offset `p`: the block body. */
  function ClockBlockAt(s: string, p: nat): Option<string>
  {
    if !AtCI(s, p, "***** show clock *****") then None
    else
      var a := p + 22;
      match FindFrom(s, "\n***** ", a + 1, false)
      case None => None
      case Some(b) => Some(s[a..b])
  }

  /** The first line that starts with `*` once stripped, with its asterisks and whitespace removed. */
  function FirstStarLine(lines: seq<string>): (r: Option<string>)
    ensures (forall j :: 0 <= j < |lines| ==> NoBreak(lines[j])) && r.Some? ==> NoBreak(r.value)
    ensures r.Some? ==> Trimmed(r.value)
  {
    if |lines| == 0 then None
    else
      var line := Strip(lines[0]);
      if |line| > 0 && line[0] == '*' then Some(StarText(lines[0], line))
      else
        FirstStarLine(lines[1..])
  }

  /** The stripped `line` of `raw` without its leading asterisks, stripped again. */
  function StarText(raw: string, line: string): (r: string)
    requires line == Strip(raw)
    ensures NoBreak(raw) ==> NoBreak(r)
    ensures Trimmed(r)
  {
    var t := LStripChar(line, '*');
    assert forall c :: c in t ==> c in line;
    Strip(t)
  }

  /** `_extract_show_clock_time`: the clock line after a prompt, else from the asterisk block, else "". */
  function ShowClockTime(content: string): (r: string)
    ensures Search(content, ClockPromptAt).Some? ==> r == Strip(Search(content, ClockPromptAt).value)
    ensures NoBreak(r)
    ensures Trimmed(r)
  {
    match Search(content, ClockPromptAt)
    case Some(g) => Strip(g)
    case None =>
      match Search(content, ClockBlockAt)
      case None => ""
      case Some(body) =>
        match FirstStarLine(LinesOf(body))
        case Some(t) => t
        case None => ""
  }

  /** `str.splitlines()` up to empty pieces: the text cut at every line-break character. */
  function LinesOf(s: string): (r: seq<string>)
    ensures forall j :: 0 <= j < |r| ==> NoBreak(r[j])
    decreases |s|
  {
    if |s| == 0 then []
    else
      var e := RunEnd(s, 0, NonNewline);
      var br := BreakIn(s[..e]);
      match br
      case Some(b) => [s[..b]] + LinesOf(s[b + 1..])
      case None => [s[..e]] + (if e < |s| then LinesOf(s[e + 1..]) else [])
  }

  /** The first character other than `\n` that `str.splitlines` also treats as a line break. */
  function BreakIn(s: string): (r: Option<nat>)
    ensures r.Some? ==> r.value < |s|
  {
    if |s| == 0 then None
    else if s[0] in "\r\U{000B}\U{000C}\U{001C}\U{001D}\U{001E}\U{0085}\U{2028}\U{2029}" then Some(0)
    else match BreakIn(s[1..])
      case None => None
      case Some(k) => Some(k + 1)
  }

  /** The main section: the AP name and the clock time, each stored only when non-empty. */
  function MainMetrics(content: string, apAddress: string): (r: Fields)
    ensures Keys(r) == MainKeys
    ensures Get(r, "main_ap_name") ==
              Some(if RecoverApName(ExtractApName(content), apAddress) == "" then Null
                   else Str(RecoverApName(ExtractApName(content), apAddress)))
    ensures Get(r, "show_clock_time") ==
              Some(if ShowClockTime(content) == "" then Null else Str(ShowClockTime(content)))
  {
    var name := RecoverApName(ExtractApName(content), apAddress);
    var clock := ShowClockTime(content);
    var m := DefaultMain();
    var m := if name != "" then Put(m, "main_ap_name", Str(name)) else m;
    if clock != "" then Put(m, "show_clock_time", Str(clock)) else m
  }

  // ---------------------------------------------------------------- GNSS state

  /** `show gnss info\s*\n\s*No GNSS detected` (any case) at offset `p`. */
  function NoGnssAt(s: string, p: nat): Option<nat>
  {
    if !AtCI(s, p, "show gnss info") then None
    else
      var a := p + 14;
      var q := SkipSpace(s, a);
      if '\n' in s[a..q] && AtCI(s, q, "No GNSS detected") then Some(q) else None
  }

  predicate NoGnssDetected(content: string)
  {
    Search(content, NoGnssAt).Some?
  }

  /** The offset of the state section: "GnssState:" exactly, else in any letter case. */
  function StateStart(content: string): (r: Option<nat>)
    ensures r.Some? ==> r.value <= |content|
    ensures Find(content, "GnssState:").Some? ==> r == Find(content, "GnssState:")
  {
    match Find(content, "GnssState:")
    case Some(i) => Some(i)
    case None => FindCI(content, "gnssstate:")
  }

  /** The state section: from its start up to the first "Const." (any case), or to the end. */
  function StateSection(content: string): Option<string>
  {
    match StateStart(content)
    case None => None
    case Some(i) =>
      var rest := content[i..];
      match FindCI(rest, "Const.")
      case Some(e) => Some(rest[..e])
      case None => Some(rest)
  }

  /** The shape of a capture group after a field's label. */
  datatype Shape = RunOf(cls: CharClass) | TrueOrFalse | Stamp

  /** The conversion applied to a captured value. */
  datatype Conversion = AsText | AsBool | AsFloat | AsInt

  /** One entry of the state pattern table: the key it fills, the label it looks for, its conversion. */
  datatype FieldPattern = FieldPattern(key: string, tag: string, shape: Shape, conv: Conversion)

  const StatePatterns: seq<FieldPattern> := [
    FieldPattern("state", "GnssState:", RunOf(Word), AsText),
    FieldPattern("external_antenna", "ExternalAntenna:", TrueOrFalse, AsBool),
    FieldPattern("fix_type", "Fix:", RunOf(NonSpace), AsText),
    FieldPattern("valid_fix", "ValidFix:", TrueOrFalse, AsBool),
    FieldPattern("gnss_fix_time", "Time:", Stamp, AsText),
    FieldPattern("latitude", "Latitude:", RunOf(DigitDotDash), AsFloat),
    FieldPattern("longitude", "Longitude:", RunOf(DigitDotDash), AsFloat),
    FieldPattern("horacc", "HorAcc:", RunOf(DigitDot), AsFloat),
    FieldPattern("altitude_msl", "Altitude MSL:", RunOf(DigitDot), AsFloat),
    FieldPattern("altitude_hae", "HAE:", RunOf(DigitDot), AsFloat),
    FieldPattern("vertacc", "VertAcc:", RunOf(DigitDot), AsFloat),
    FieldPattern("numsat", "NumSat:", RunOf(Digit), AsInt),
    FieldPattern("rangeres", "RangeRes:", RunOf(DigitDot), AsFloat),
    FieldPattern("gpgstrms", "GpGstRms:", RunOf(DigitDot), AsFloat),
    FieldPattern("satellitecount", "SatelliteCount:", RunOf(Digit), AsInt),
    FieldPattern("last_fix_time", "LastFixTime:", Stamp, AsText)]

  /** The pattern of `p` tried at offset `i`. */
  function MatchField(s: string, i: nat, p: FieldPattern, ci: bool): Option<string>
  {
    match p.shape
    case RunOf(k) => LabelRun(s, i, p.tag, k, ci)
    case TrueOrFalse => LabelTrueFalse(s, i, p.tag, ci)
    case Stamp => LabelTimestamp(s, i, p.tag, ci)
  }

  /** What the first match of `p` in `section` captured. */
  function FirstCapture(section: string, p: FieldPattern, ci: bool): Option<string>
  {
    Search(section, (t: string, k: nat) => MatchField(t, k, p, ci))
  }

  /**
   * A captured value converted: `True`/`False` for the two flags, `float()`
   * or `int()` for numeric fields, keeping the text when the conversion
   * fails, the text itself otherwise.
   */
  function Convert(conv: Conversion, value: string): (r: Value)
    ensures conv == AsBool ==> r == Bool(BaseParser.ConvertToBool(value))
    ensures conv == AsFloat ==> (r.Num? <==> ParseFloat(value).Some?) && (r.Num? ==> r.r == ParseFloat(value).value)
    ensures conv == AsInt ==> (r.Int? <==> ParseInt(value).Some?) && (r.Int? ==> r.i == ParseInt(value).value)
    ensures conv == AsText || (conv != AsBool && !r.Num? && !r.Int?) ==> r == Str(value)
  {
    match conv
    case AsBool => Bool(BaseParser.ConvertToBool(value))
    case AsFloat => (match ParseFloat(value) case Some(x) => Num(x) case None => Str(value))
    case AsInt => (match ParseInt(value) case Some(n) => Int(n) case None => Str(value))
    case AsText => Str(value)
  }

  const EllipseKeys: seq<string> := ["uncertainty_ellipse_major_axis", "uncertainty_ellipse_minor_axis",
                                     "uncertainty_ellipse_orientation"]
  const EllipseTags: seq<string> := ["Major axis:", "Minor axis:", "Orientation:"]
  const DopKeys: seq<string> := ["pdop", "hdop", "vdop", "ndop", "edop", "gdop", "tdop"]
  const DopTags: seq<string> := ["pDOP:", "hDOP:", "vDOP:", "nDOP:", "eDOP:", "gDOP:", "tDOP:"]

  /** `Uncertainty Ellipse:\s*Major axis:\s*(..)\s*Minor axis:\s*(..)\s*Orientation:\s*(..)` at `i`. */
  function EllipseAt(s: string, i: nat, ci: bool): Option<seq<string>>
  {
    if !AtCase(s, i, "Uncertainty Ellipse:", ci) then None
    else NumberGroups(s, SkipSpace(s, i + 20), EllipseTags, false, ci)
  }

  /** `HorAcc:\s*[\d\.]+\s+hDOP:\s*([\d\.]+)` at `i`: only the second number is kept. */
  function HorAccHdopAt(s: string, i: nat, ci: bool): Option<seq<string>>
  {
    match NumberGroups(s, i, ["HorAcc:", "hDOP:"], true, ci)
    case None => None
    case Some(gs) => Some(gs[1..])
  }

  /** `float()` of every capture, or `None` when one of them is not a number. */
  function FloatsOf(gs: seq<string>): (r: Option<seq<real>>)
    ensures r.Some? ==> |r.value| == |gs|
    ensures r.Some? <==> forall g :: 0 <= g < |gs| ==> ParseFloat(gs[g]).Some?
    ensures r.Some? ==> forall g :: 0 <= g < |gs| ==> r.value[g] == ParseFloat(gs[g]).value
  {
    var ps := seq(|gs|, g requires 0 <= g < |gs| => ParseFloat(gs[g]));
    assert forall g :: 0 <= g < |gs| ==> ps[g] == ParseFloat(gs[g]);
    AllPresent(ps)
  }

  /** Every number, or `None` as soon as one is missing. */
  function AllPresent(ps: seq<Option<real>>): (r: Option<seq<real>>)
    ensures r.Some? <==> forall g :: 0 <= g < |ps| ==> ps[g].Some?
    ensures r.Some? ==> |r.value| == |ps| && forall g :: 0 <= g < |ps| ==> r.value[g] == ps[g].value
  {
    if |ps| == 0 then Some([])
    else match (ps[0], AllPresent(ps[1..]))
      case (Some(x), Some(xs)) => Some([x] + xs)
      case (None, _) => None
      case (_, None) =>
        assert exists g :: 1 <= g < |ps| && ps[g].None? by {
          var g :| 0 <= g < |ps[1..]| && ps[1..][g].None?;
          assert ps[g + 1].None?;
        }
        None
  }

  function Zip(keys: seq<string>, xs: seq<real>): (r: Fields)
    requires |keys| == |xs|
    ensures Keys(r) == keys
    ensures forall i :: 0 <= i < |r| ==> r[i].1.Num?
  {
    if |keys| == 0 then []
    else
      var rest := Zip(keys[1..], xs[1..]);
      KeysCons((keys[0], Num(xs[0])), rest);
      [(keys[0], Num(xs[0]))] + rest
  }

  /**
   * The writes of one multi-number group: nothing when the group does not
   * match, all of its numbers when they parse, and the uncaught `ValueError`
   * of `float()` when one does not.
   */
  function GroupWrites(keys: seq<string>, captures: Option<seq<string>>): (r: Result<Fields>)
    requires captures.Some? ==> |captures.value| == |keys|
    ensures r.Success? && captures.Some? ==> Keys(r.value) == keys
    ensures r.Success? && captures.None? ==> r.value == []
    ensures r.Success? ==> forall i :: 0 <= i < |r.value| ==> r.value[i].1.Num?
  {
    match captures
    case None => Success([])
    case Some(gs) =>
      match FloatsOf(gs)
      case None => Failure("ValueError")
      case Some(xs) => Success(Zip(keys, xs))
  }

  /** The assignment one table entry makes: none when its pattern does not match. */
  function TableWrite(key: string, cap: Option<Value>): (r: Fields)
    ensures |r| <= 1 && Keys(r) == if |r| == 0 then [] else [key]
  {
    match cap
    case None => []
    case Some(v) => [(key, v)]
  }

  /**
   * The writes of the pattern table, in table order, one for each entry that
   * matched; `caps[i]` is what entry `i` contributes.
   */
  function TableWrites(pats: seq<FieldPattern>, caps: seq<Option<Value>>): (r: Fields)
    requires |caps| == |pats|
  {
    if |pats| == 0 then []
    else
      var n := |pats| - 1;
      TableWrites(pats[..n], caps[..n]) + TableWrite(pats[n].key, caps[n])
  }

  /** Every key the table writes is the key of one of its entries. */
  lemma {:induction false} TableWritesKeys(pats: seq<FieldPattern>, caps: seq<Option<Value>>, k: string)
    requires |caps| == |pats| && k in Keys(TableWrites(pats, caps))
    ensures exists i :: 0 <= i < |pats| && pats[i].key == k
  {
    var n := |pats| - 1;
    var prev, w := TableWrites(pats[..n], caps[..n]), TableWrite(pats[n].key, caps[n]);
    KeysAppend(prev, w);
    if k in Keys(prev) {
      TableWritesKeys(pats[..n], caps[..n], k);
      var i :| 0 <= i < n && pats[..n][i].key == k;
      assert pats[i].key == k;
    } else {
      assert pats[n].key == k;
    }
  }

  /** What each entry of the table contributes in `section`. */
  function Captures(section: string, pats: seq<FieldPattern>, ci: bool): (r: seq<Option<Value>>)
    ensures |r| == |pats|
  {
    seq(|pats|, i requires 0 <= i < |pats| => Captured(section, pats[i], ci))
  }

  lemma CapturesAt(section: string, pats: seq<FieldPattern>, ci: bool, i: nat)
    requires i < |pats|
    ensures Captures(section, pats, ci)[i] == Captured(section, pats[i], ci)
  {
  }

  /** The writes of the pattern table in `section`. */
  function PatternWrites(section: string, pats: seq<FieldPattern>, ci: bool): Fields
  {
    TableWrites(pats, Captures(section, pats, ci))
  }

  lemma TableWritesStep(pats: seq<FieldPattern>, caps: seq<Option<Value>>, i: nat)
    requires |caps| == |pats| && i < |pats|
    ensures TableWrites(pats[..i + 1], caps[..i + 1])
         == TableWrites(pats[..i], caps[..i]) + TableWrite(pats[i].key, caps[i])
  {
    assert pats[..i + 1][..i] == pats[..i];
    assert caps[..i + 1][..i] == caps[..i];
  }

  lemma KeysSnoc(d: Fields, x: (string, Value))
    ensures Keys(d + [x]) == Keys(d) + [x.0]
  {
  }

  /** A group whose pattern matched but one of whose captures `float()` rejects. */
  predicate GroupFails(captures: Option<seq<string>>)
  {
    captures.Some? && FloatsOf(captures.value).None?
  }

  function EllipseCaptures(section: string, ci: bool): (r: Option<seq<string>>)
    ensures r.Some? ==> |r.value| == 3
  {
    Search(section, (t: string, k: nat) => EllipseAt(t, k, ci))
  }

  function DopCaptures(section: string, ci: bool): (r: Option<seq<string>>)
    ensures r.Some? ==> |r.value| == 7
  {
    Search(section, (t: string, k: nat) => NumberGroups(t, k, DopTags, true, ci))
  }

  function HdopCaptures(section: string, ci: bool): (r: Option<seq<string>>)
    ensures r.Some? ==> |r.value| == 1
  {
    Search(section, (t: string, k: nat) => HorAccHdopAt(t, k, ci))
  }

  /**
   * The assignments of the three multi-number groups (ellipse, DOP line,
   * HorAcc/hDOP), in that order; a `ValueError` when a matched group holds
   * a capture that is not a number.
   */
  function GroupsWrites(section: string, ci: bool): (r: Result<Fields>)
    ensures r.Success? ==> forall k :: k in Keys(r.value) ==> k in GroupKeys
  {
    GroupsOf(EllipseCaptures(section, ci), DopCaptures(section, ci), HdopCaptures(section, ci))
  }

  /** Captures that fit a group's keys: one number per key when the group matched. */
  predicate Fits(keys: seq<string>, caps: Option<seq<string>>)
  {
    caps.Some? ==> |caps.value| == |keys|
  }

  /** Captures that fit the three groups: three numbers, seven, and one. */
  predicate GroupSizes(e: Option<seq<string>>, d: Option<seq<string>>, h: Option<seq<string>>)
  {
    Fits(EllipseKeys, e) && Fits(DopKeys, d) && Fits(["horacc_hdop"], h)
  }

  /** The three groups' assignments once their captures `e`, `d` and `h` are known. */
  function GroupsOf(e: Option<seq<string>>, d: Option<seq<string>>, h: Option<seq<string>>): (r: Result<Fields>)
    requires GroupSizes(e, d, h)
    ensures r.Success? ==> forall k :: k in Keys(r.value) ==> k in GroupKeys
  {
    ThreeGroups(EllipseKeys, DopKeys, ["horacc_hdop"], e, d, h)
  }

  /** Three groups with keys `k1`, `k2`, `k3`, one after another; the first `ValueError` stops them. */
  function ThreeGroups(k1: seq<string>, k2: seq<string>, k3: seq<string>,
                       e: Option<seq<string>>, d: Option<seq<string>>, h: Option<seq<string>>): (r: Result<Fields>)
    requires Fits(k1, e) && Fits(k2, d) && Fits(k3, h)
    ensures r.Success? ==> forall k :: k in Keys(r.value) ==> k in k1 + k2 + k3
  {
    match GroupWrites(k1, e)
    case Failure(err) => Failure(err)
    case Success(w1) =>
      match GroupWrites(k2, d)
      case Failure(err) => Failure(err)
      case Success(w2) =>
        match GroupWrites(k3, h)
        case Failure(err) => Failure(err)
        case Success(w3) =>
          KeysAppend(w1, w2);
          KeysAppend(w1 + w2, w3);
          Success(w1 + w2 + w3)
  }

  /** The groups fail exactly when one of the three matched and holds a capture that is not a number. */
  lemma GroupsWritesFail(section: string, ci: bool)
    ensures GroupsWrites(section, ci).Failure? <==>
              GroupFails(EllipseCaptures(section, ci)) || GroupFails(DopCaptures(section, ci)) ||
              GroupFails(HdopCaptures(section, ci))
  {
  }

  /** Every assignment `_extract_gnss_metrics` makes to the state section, in order. */
  function StateWrites(section: string, ci: bool): (r: Result<Fields>)
    ensures r.Failure? <==> GroupsWrites(section, ci).Failure?
  {
    match GroupsWrites(section, ci)
    case Failure(e) => Failure(e)
    case Success(w) => Success(w + PatternWrites(section, StatePatterns, ci))
  }

  /** The dict after a run of assignments, or the error that interrupted it. */
  function Applied(d: Fields, writes: Result<Fields>): (r: Result<Fields>)
    ensures r.Success? <==> writes.Success?
  {
    match writes
    case Failure(e) => Failure(e)
    case Success(w) => Success(PutAll(d, w))
  }

  /** The defaults with the "No GNSS detected" flag set as the capture says. */
  function Flagged(noGnss: bool): Fields
  {
    Put(DefaultState(), "no_gnss_detected", Bool(noGnss))
  }

  /**
   * The state section as `_extract_gnss_metrics` fills it: the defaults with
   * the "No GNSS detected" flag, and, when the flag is clear and a state
   * section exists, every assignment of the groups and the pattern table.
   * Its properties are the lemmas below.
   */
  function StateMetrics(content: string): Result<Fields>
  {
    StateFrom(NoGnssDetected(content), StateSection(content))
  }

  /** The state section once the flag and the section's text are known. */
  function StateFrom(noGnss: bool, section: Option<string>): Result<Fields>
  {
    if noGnss || section.None? then Success(Flagged(noGnss))
    else Applied(Flagged(noGnss), StateWrites(section.value, true))
  }

  /** The flag and the defaults: the section keeps the default schema, the flag is set as the capture says. */
  lemma FlaggedFacts(noGnss: bool)
    ensures Keys(Flagged(noGnss)) == StateKeys
    ensures Get(Flagged(noGnss), "no_gnss_detected") == Some(Bool(noGnss))
    ensures forall k :: k in StateKeys && k != "no_gnss_detected" ==> Get(Flagged(noGnss), k) == Some(Null)
  {
    DefaultStateShape();
  }

  /** Whatever is found, the state section keeps exactly the default schema and the flag the capture sets. */
  lemma StateMetricsSchema(content: string)
    ensures StateSchema(StateMetrics(content), NoGnssDetected(content))
  {
    SchemaFrom(NoGnssDetected(content), StateSection(content));
  }

  lemma SchemaFrom(noGnss: bool, section: Option<string>)
    ensures StateSchema(StateFrom(noGnss, section), noGnss)
  {
    if StateFrom(noGnss, section).Success? {
      KeysFrom(noGnss, section);
    }
  }

  lemma KeysFrom(noGnss: bool, section: Option<string>)
    requires StateFrom(noGnss, section).Success?
    ensures Keys(StateFrom(noGnss, section).value) == StateKeys
    ensures Get(StateFrom(noGnss, section).value, "no_gnss_detected") == Some(Bool(noGnss))
  {
    FlaggedFacts(noGnss);
    var s0 := Flagged(noGnss);
    if !noGnss && section.Some? {
      StateWritesInSchema(section.value, true);
      PutAllFacts(s0, StateWrites(section.value, true).value);
      NewKeysNone(Keys(StateWrites(section.value, true).value), Keys(s0));
    }
  }

  /** A state section that did not fail has exactly the default's keys, and the flag `noGnss`. */
  predicate StateSchema(r: Result<Fields>, noGnss: bool)
  {
    r.Success? ==> Keys(r.value) == StateKeys && Get(r.value, "no_gnss_detected") == Some(Bool(noGnss))
  }

  /** With "No GNSS detected" in the capture, every state field but the flag stays null. */
  lemma StateMetricsNoGnss(content: string)
    requires NoGnssDetected(content)
    ensures StateMetrics(content).Success?
    ensures forall k :: k in StateKeys && k != "no_gnss_detected" ==> Get(StateMetrics(content).value, k) == Some(Null)
  {
    NoGnssFrom(StateSection(content));
  }

  lemma NoGnssFrom(section: Option<string>)
    ensures StateFrom(true, section).Success?
    ensures forall k :: k in StateKeys && k != "no_gnss_detected" ==> Get(StateFrom(true, section).value, k) == Some(Null)
  {
    FlaggedFacts(true);
  }

  /** The state section fails exactly when a receiver is reported and one of its number groups does not convert. */
  lemma StateMetricsFails(content: string)
    ensures StateMetrics(content).Failure? <==>
              !NoGnssDetected(content) && StateSection(content).Some? &&
              GroupsWrites(StateSection(content).value, true).Failure?
  {
    FailsFrom(NoGnssDetected(content), StateSection(content));
  }

  lemma FailsFrom(noGnss: bool, section: Option<string>)
    ensures StateFrom(noGnss, section).Failure? <==>
              !noGnss && section.Some? && GroupsWrites(section.value, true).Failure?
  {
  }

  /** Every key the groups or the pattern table assign belongs to the state schema, and none is the flag. */
  lemma StateWritesInSchema(section: string, ci: bool)
    requires StateWrites(section, ci).Success?
    ensures forall k :: k in Keys(StateWrites(section, ci).value) ==> k in StateKeys && k != "no_gnss_detected"
  {
    var gw := GroupsWrites(section, ci).value;
    var pw := PatternWrites(section, StatePatterns, ci);
    KeysAppend(gw, pw);
    PatternKeysInSchema();
    GroupKeysInSchema();
    forall k | k in Keys(gw + pw) ensures k in StateKeys && k != "no_gnss_detected" {
      if k in Keys(gw) {
        var i :| 0 <= i < |GroupKeys| && GroupKeys[i] == k;
      } else {
        TableWritesKeys(StatePatterns, Captures(section, StatePatterns, ci), k);
        var i :| 0 <= i < |StatePatterns| && StatePatterns[i].key == k;
      }
    }
  }

  const GroupKeys: seq<string> := EllipseKeys + DopKeys + ["horacc_hdop"]

  lemma PatternKeysInSchema()
    ensures forall i :: 0 <= i < |StatePatterns| ==> StatePatterns[i].key in StateKeys
    ensures forall i :: 0 <= i < |StatePatterns| ==> StatePatterns[i].key != "no_gnss_detected"
    ensures forall i :: 0 <= i < |StatePatterns| ==> StatePatterns[i].key !in GroupKeys
  {
    StateKeysDistinct();
    PatternSlotsAt();
    PatternSlotsValid();
    GroupSlotsAt();
  }

  lemma GroupKeysInSchema()
    ensures forall i :: 0 <= i < |GroupKeys| ==> GroupKeys[i] in StateKeys && GroupKeys[i] != "no_gnss_detected"
  {
    StateKeysDistinct();
    GroupSlotsAt();
  }

  lemma StateKeysDistinct()
    ensures forall a, b :: 0 <= a < b < |StateKeys| ==> StateKeys[a] != StateKeys[b]
  {
  }

  /** Where the key of each pattern table entry sits in the state schema. */
  const PatternSlots: seq<nat> := [1, 2, 3, 4, 5, 7, 8, 9, 11, 12, 13, 14, 15, 16, 17, 6]

  /** Where each group key sits in the state schema. */
  const GroupSlots: seq<nat> := [18, 19, 20, 21, 22, 23, 24, 25, 26, 27, 10]

  lemma PatternSlotsAt()
    ensures |PatternSlots| == |StatePatterns| && forall i :: 0 <= i < |PatternSlots| ==> 0 < PatternSlots[i] < |StateKeys|
    ensures forall i :: 0 <= i < |StatePatterns| ==> StatePatterns[i].key == StateKeys[PatternSlots[i]]
  {
    PatternSlotsValid();
  }

  lemma PatternSlotsValid()
    ensures |PatternSlots| == |StatePatterns| && forall i :: 0 <= i < |PatternSlots| ==> 0 < PatternSlots[i] <= 17 && PatternSlots[i] != 10
    ensures forall a, b :: 0 <= a < b < |PatternSlots| ==> PatternSlots[a] != PatternSlots[b]
  {
  }

  lemma GroupSlotsAt()
    ensures |GroupSlots| == |GroupKeys| && forall i :: 0 <= i < |GroupSlots| ==> GroupSlots[i] == 10 || 17 < GroupSlots[i] < |StateKeys|
    ensures forall i :: 0 <= i < |GroupKeys| ==> GroupKeys[i] == StateKeys[GroupSlots[i]]
  {
  }

  /** What one table entry contributes: its converted capture, or nothing when it does not match. */
  function Captured(section: string, p: FieldPattern, ci: bool): Option<Value>
  {
    match FirstCapture(section, p, ci)
    case None => None
    case Some(g) => Some(Convert(p.conv, g))
  }

  /**
   * When the table's keys are distinct, the last assignment to an entry's key
   * is that entry's own: later entries never overwrite it.
   */
  lemma {:induction false} TableWritesLast(pats: seq<FieldPattern>, caps: seq<Option<Value>>, j: nat)
    requires |caps| == |pats| && j < |pats|
    requires forall a :: 0 <= a < |pats| && a != j ==> pats[a].key != pats[j].key
    ensures LastGet(TableWrites(pats, caps), pats[j].key) == caps[j]
    decreases |pats|
  {
    var n := |pats| - 1;
    if j < n {
      TableLastEarlier(pats, caps, j);
      assert pats[..n][j] == pats[j] && caps[..n][j] == caps[j];
      TableWritesLast(pats[..n], caps[..n], j);
    } else {
      TableLastOwn(pats, caps);
    }
  }

  /** The last entry does not touch an earlier entry's key. */
  lemma TableLastEarlier(pats: seq<FieldPattern>, caps: seq<Option<Value>>, j: nat)
    requires |caps| == |pats| && j + 1 < |pats| && pats[j].key != pats[|pats| - 1].key
    ensures LastGet(TableWrites(pats, caps), pats[j].key) ==
              LastGet(TableWrites(pats[..|pats| - 1], caps[..|pats| - 1]), pats[j].key)
  {
    var n := |pats| - 1;
    var prev, w := TableWrites(pats[..n], caps[..n]), TableWrite(pats[n].key, caps[n]);
    assert TableWrites(pats, caps) == prev + w;
    LastGetConcat(prev, w, pats[j].key);
    TableWriteLast(pats[n].key, caps[n], pats[j].key);
  }

  /** The last entry's key, written by no earlier entry, holds what the last entry contributed. */
  lemma TableLastOwn(pats: seq<FieldPattern>, caps: seq<Option<Value>>)
    requires |caps| == |pats| && |pats| > 0
    requires forall a :: 0 <= a < |pats| - 1 ==> pats[a].key != pats[|pats| - 1].key
    ensures LastGet(TableWrites(pats, caps), pats[|pats| - 1].key) == caps[|pats| - 1]
  {
    var n := |pats| - 1;
    var k := pats[n].key;
    var prev, w := TableWrites(pats[..n], caps[..n]), TableWrite(k, caps[n]);
    assert TableWrites(pats, caps) == prev + w;
    LastGetConcat(prev, w, k);
    TableWriteLast(k, caps[n], k);
    TableWritesAbsent(pats[..n], caps[..n], k);
  }

  /** No two entries of the table fill the same key. */
  predicate DistinctKeys(pats: seq<FieldPattern>)
  {
    forall a, b :: 0 <= a < b < |pats| ==> pats[a].key != pats[b].key
  }

  lemma TableWriteLast(key: string, cap: Option<Value>, k: string)
    ensures LastGet(TableWrite(key, cap), k) == if k == key then cap else None
  {
  }

  lemma TableWritesAbsent(pats: seq<FieldPattern>, caps: seq<Option<Value>>, k: string)
    requires |caps| == |pats|
    requires forall a :: 0 <= a < |pats| ==> pats[a].key != k
    ensures LastGet(TableWrites(pats, caps), k).None?
  {
    if k in Keys(TableWrites(pats, caps)) {
      TableWritesKeys(pats, caps, k);
    }
  }

  /**
   * Each field of the pattern table holds, after extraction, the converted
   * first match of its pattern in the state section, or stays `None` when the
   * pattern does not match.
   */
  lemma StatePatternField(content: string, j: nat)
    requires j < |StatePatterns|
    requires !NoGnssDetected(content) && StateSection(content).Some?
    requires StateMetrics(content).Success?
    ensures Get(StateMetrics(content).value, StatePatterns[j].key) ==
              Some(match Captured(StateSection(content).value, StatePatterns[j], true)
                   case None => Null
                   case Some(v) => v)
  {
    PatternFrom(StateSection(content).value, j);
  }

  lemma PatternFrom(section: string, j: nat)
    requires j < |StatePatterns| && StateFrom(false, Some(section)).Success?
    ensures Get(StateFrom(false, Some(section)).value, StatePatterns[j].key) ==
              Some(OrNull(Captured(section, StatePatterns[j], true)))
  {
    var gw := StateFromWrites(section);
    PatternAfterGroups(gw, section, j);
    SuccessGet(StateFrom(false, Some(section)), PutAll(Flagged(false), gw + PatternWrites(section, StatePatterns, true)),
               StatePatterns[j].key, OrNull(Captured(section, StatePatterns[j], true)));
  }

  /** After any group assignments, a table entry's key holds that entry's capture, or `None`. */
  lemma PatternAfterGroups(gw: Fields, section: string, j: nat)
    requires j < |StatePatterns|
    requires forall k :: k in Keys(gw) ==> k in GroupKeys
    ensures Get(PutAll(Flagged(false), gw + PatternWrites(section, StatePatterns, true)), StatePatterns[j].key) ==
              Some(OrNull(Captured(section, StatePatterns[j], true)))
  {
    PatternApart(j);
    TableFieldAfter(Flagged(false), gw, section, StatePatterns, j, true);
  }

  /** A field of a successful result is the field of the dict it holds. */
  lemma SuccessGet(r: Result<Fields>, d: Fields, k: string, v: Value)
    requires r == Success(d) && Get(d, k) == Some(v)
    ensures r.Success? && Get(r.value, k) == Some(v)
  {
  }

  /** A state section with the flag clear that did not fail: the groups' assignments, then the table's. */
  lemma StateFromWrites(section: string) returns (gw: Fields)
    requires StateFrom(false, Some(section)).Success?
    ensures StateFrom(false, Some(section)) == Success(PutAll(Flagged(false), gw + PatternWrites(section, StatePatterns, true)))
    ensures forall k :: k in Keys(gw) ==> k in GroupKeys
  {
    gw := GroupsWrites(section, true).value;
  }

  /** An entry's key: no other entry's, no group's, and `None` in the defaults. */
  lemma PatternApart(j: nat)
    requires j < |StatePatterns|
    ensures forall a :: 0 <= a < |StatePatterns| && a != j ==> StatePatterns[a].key != StatePatterns[j].key
    ensures StatePatterns[j].key !in GroupKeys && Get(Flagged(false), StatePatterns[j].key) == Some(Null)
  {
    FlaggedFacts(false);
    PatternKeysInSchema();
    PatternTableDistinct();
  }

  /** After the groups and the table, an entry's key holds what the entry contributed, or stays `None`. */
  lemma TableFieldAfter(s0: Fields, gw: Fields, section: string, pats: seq<FieldPattern>, j: nat, ci: bool)
    requires j < |pats|
    requires forall a :: 0 <= a < |pats| && a != j ==> pats[a].key != pats[j].key
    requires pats[j].key !in Keys(gw) && Get(s0, pats[j].key) == Some(Null)
    ensures Get(PutAll(s0, gw + PatternWrites(section, pats, ci)), pats[j].key) ==
              Some(OrNull(Captured(section, pats[j], ci)))
  {
    var k := pats[j].key;
    var caps := Captures(section, pats, ci);
    var pw := TableWrites(pats, caps);
    TableWritesLast(pats, caps, j);
    CapturesAt(section, pats, ci, j);
    LastGetConcat(gw, pw, k);
    PutAllGets(s0, gw + pw);
  }

  lemma PatternTableDistinct()
    ensures DistinctKeys(StatePatterns)
  {
    StateKeysDistinct();
    PatternSlotsAt();
    PatternSlotsValid();
  }

  /** The number a group assigns to its `i`-th key: the `float()` of its `i`-th capture. */
  lemma ZipLast(keys: seq<string>, xs: seq<real>, i: nat)
    requires |keys| == |xs| && i < |keys|
    requires forall a, b :: 0 <= a < b < |keys| ==> keys[a] != keys[b]
    ensures LastGet(Zip(keys, xs), keys[i]) == Some(Num(xs[i]))
  {
    var z := Zip(keys, xs);
    ZipAt(keys, xs, i);
    assert UniqueKeys(z) by {
      forall a, b | 0 <= a < b < |z| ensures z[a].0 != z[b].0 {
        assert Keys(z)[a] == keys[a] && Keys(z)[b] == keys[b];
      }
    }
    LastGetEntry(z, i);
  }

  lemma {:induction false} ZipAt(keys: seq<string>, xs: seq<real>, i: nat)
    requires |keys| == |xs| && i < |keys|
    ensures Zip(keys, xs)[i] == (keys[i], Num(xs[i]))
    decreases i
  {
    if i > 0 {
      ZipAt(keys[1..], xs[1..], i - 1);
    }
  }

  /** The captures of the group that fills key `g` of `k1 + k2 + k3`, where `n1 == |k1|` and `n2 == |k2|`. */
  function CapsFor(n1: nat, n2: nat, e: Option<seq<string>>, d: Option<seq<string>>, h: Option<seq<string>>,
                   g: nat): Option<seq<string>>
  {
    if g < n1 then e else if g < n1 + n2 then d else h
  }

  /** The place of key `g`'s number among its group's captures. */
  function PlaceFor(n1: nat, n2: nat, g: nat): nat
  {
    if g < n1 then g else if g < n1 + n2 then g - n1 else g - n1 - n2
  }

  /**
   * What a group field holds after its group: `None` when the group did not
   * match, the `float()` of its capture when it did. (A capture `float()`
   * rejects never gets here: the group raises first.)
   */
  function FieldFrom(caps: Option<seq<string>>, i: nat): Value
    requires caps.Some? ==> i < |caps.value|
  {
    match caps
    case None => Null
    case Some(gs) => match ParseFloat(gs[i]) case Some(x) => Num(x) case None => Str(gs[i])
  }

  /** The group field `GroupKeys[g]` after the groups with captures `e`, `d` and `h`. */
  function GroupField(e: Option<seq<string>>, d: Option<seq<string>>, h: Option<seq<string>>, g: nat): Value
    requires g < |GroupKeys| && GroupSizes(e, d, h)
  {
    FieldFrom(CapsFor(3, 7, e, d, h, g), PlaceFor(3, 7, g))
  }

  /** The last assignment one group makes to its `i`-th key. */
  lemma GroupWritesLast(keys: seq<string>, caps: Option<seq<string>>, i: nat)
    requires Fits(keys, caps) && i < |keys| && GroupWrites(keys, caps).Success?
    requires forall a, b :: 0 <= a < b < |keys| ==> keys[a] != keys[b]
    ensures caps.Some? ==> ParseFloat(caps.value[i]).Some?
    ensures LastGet(GroupWrites(keys, caps).value, keys[i]) == if caps.None? then None else Some(FieldFrom(caps, i))
  {
    if caps.Some? {
      ZipLast(keys, FloatsOf(caps.value).value, i);
    }
  }

  /** A group never assigns a key outside its own. */
  lemma GroupWritesOther(keys: seq<string>, caps: Option<seq<string>>, k: string)
    requires Fits(keys, caps) && GroupWrites(keys, caps).Success? && k !in keys
    ensures LastGet(GroupWrites(keys, caps).value, k).None?
  {
  }

  /**
   * After three groups with distinct keys, a key is assigned exactly when its
   * group matched, and then holds the `float()` of its capture.
   */
  lemma ThreeLast(k1: seq<string>, k2: seq<string>, k3: seq<string>,
                  e: Option<seq<string>>, d: Option<seq<string>>, h: Option<seq<string>>, g: nat)
    requires Fits(k1, e) && Fits(k2, d) && Fits(k3, h) && ThreeGroups(k1, k2, k3, e, d, h).Success?
    requires g < |k1 + k2 + k3|
    requires forall a, b :: 0 <= a < b < |k1| ==> k1[a] != k1[b]
    requires forall a, b :: 0 <= a < b < |k2| ==> k2[a] != k2[b]
    requires forall a, b :: 0 <= a < b < |k3| ==> k3[a] != k3[b]
    requires g < |k1| ==> (k1 + k2 + k3)[g] == k1[g] && (k1 + k2 + k3)[g] !in k2 && (k1 + k2 + k3)[g] !in k3
    requires |k1| <= g < |k1| + |k2| ==>
               (k1 + k2 + k3)[g] == k2[g - |k1|] && (k1 + k2 + k3)[g] !in k1 && (k1 + k2 + k3)[g] !in k3
    requires |k1| + |k2| <= g ==> (k1 + k2 + k3)[g] == k3[g - |k1| - |k2|] && (k1 + k2 + k3)[g] !in k1 && (k1 + k2 + k3)[g] !in k2
    ensures CapsFor(|k1|, |k2|, e, d, h, g).Some? ==>
              PlaceFor(|k1|, |k2|, g) < |CapsFor(|k1|, |k2|, e, d, h, g).value| &&
              ParseFloat(CapsFor(|k1|, |k2|, e, d, h, g).value[PlaceFor(|k1|, |k2|, g)]).Some?
    ensures LastGet(ThreeGroups(k1, k2, k3, e, d, h).value, (k1 + k2 + k3)[g]) ==
              if CapsFor(|k1|, |k2|, e, d, h, g).None? then None
              else Some(FieldFrom(CapsFor(|k1|, |k2|, e, d, h, g), PlaceFor(|k1|, |k2|, g)))
  {
    if g < |k1| {
      FirstRunLast(k1, k2, k3, e, d, h, g);
    } else if g < |k1| + |k2| {
      SecondRunLast(k1, k2, k3, e, d, h, g);
    } else {
      ThirdRunLast(k1, k2, k3, e, d, h, g);
    }
  }

  /** A key of the first group: only the first run assigns it. */
  lemma FirstRunLast(k1: seq<string>, k2: seq<string>, k3: seq<string>,
                     e: Option<seq<string>>, d: Option<seq<string>>, h: Option<seq<string>>, g: nat)
    requires Fits(k1, e) && Fits(k2, d) && Fits(k3, h) && ThreeGroups(k1, k2, k3, e, d, h).Success?
    requires g < |k1| && (forall a, b :: 0 <= a < b < |k1| ==> k1[a] != k1[b])
    requires (k1 + k2 + k3)[g] == k1[g] && (k1 + k2 + k3)[g] !in k2 && (k1 + k2 + k3)[g] !in k3
    ensures CapsFor(|k1|, |k2|, e, d, h, g).Some? ==>
              PlaceFor(|k1|, |k2|, g) < |CapsFor(|k1|, |k2|, e, d, h, g).value| &&
              ParseFloat(CapsFor(|k1|, |k2|, e, d, h, g).value[PlaceFor(|k1|, |k2|, g)]).Some?
    ensures LastGet(ThreeGroups(k1, k2, k3, e, d, h).value, (k1 + k2 + k3)[g]) ==
              if CapsFor(|k1|, |k2|, e, d, h, g).None? then None
              else Some(FieldFrom(CapsFor(|k1|, |k2|, e, d, h, g), PlaceFor(|k1|, |k2|, g)))
  {
    var w1, w2, w3 := ThreeRuns(k1, k2, k3, e, d, h);
    GroupWritesLast(k1, e, g);
    GroupWritesOther(k2, d, k1[g]);
    GroupWritesOther(k3, h, k1[g]);
    LastGetConcat(w1 + w2, w3, k1[g]);
    LastGetConcat(w1, w2, k1[g]);
    assert CapsFor(|k1|, |k2|, e, d, h, g) == e && PlaceFor(|k1|, |k2|, g) == g;
  }

  /** A key of the second group: only the second run assigns it. */
  lemma SecondRunLast(k1: seq<string>, k2: seq<string>, k3: seq<string>,
                     e: Option<seq<string>>, d: Option<seq<string>>, h: Option<seq<string>>, g: nat)
    requires Fits(k1, e) && Fits(k2, d) && Fits(k3, h) && ThreeGroups(k1, k2, k3, e, d, h).Success?
    requires |k1| <= g < |k1| + |k2| && (forall a, b :: 0 <= a < b < |k2| ==> k2[a] != k2[b])
    requires (k1 + k2 + k3)[g] == k2[g - |k1|] && (k1 + k2 + k3)[g] !in k1 && (k1 + k2 + k3)[g] !in k3
    ensures CapsFor(|k1|, |k2|, e, d, h, g).Some? ==>
              PlaceFor(|k1|, |k2|, g) < |CapsFor(|k1|, |k2|, e, d, h, g).value| &&
              ParseFloat(CapsFor(|k1|, |k2|, e, d, h, g).value[PlaceFor(|k1|, |k2|, g)]).Some?
    ensures LastGet(ThreeGroups(k1, k2, k3, e, d, h).value, (k1 + k2 + k3)[g]) ==
              if CapsFor(|k1|, |k2|, e, d, h, g).None? then None
              else Some(FieldFrom(CapsFor(|k1|, |k2|, e, d, h, g), PlaceFor(|k1|, |k2|, g)))
  {
    var j := g - |k1|;
    var w1, w2, w3 := ThreeRuns(k1, k2, k3, e, d, h);
    GroupWritesOther(k1, e, k2[j]);
    GroupWritesLast(k2, d, j);
    GroupWritesOther(k3, h, k2[j]);
    LastGetConcat(w1 + w2, w3, k2[j]);
    LastGetConcat(w1, w2, k2[j]);
    assert CapsFor(|k1|, |k2|, e, d, h, g) == d && PlaceFor(|k1|, |k2|, g) == j;
  }

  /** A key of the third group: only the third run assigns it. */
  lemma ThirdRunLast(k1: seq<string>, k2: seq<string>, k3: seq<string>,
                     e: Option<seq<string>>, d: Option<seq<string>>, h: Option<seq<string>>, g: nat)
    requires Fits(k1, e) && Fits(k2, d) && Fits(k3, h) && ThreeGroups(k1, k2, k3, e, d, h).Success?
    requires |k1| + |k2| <= g < |k1 + k2 + k3| && (forall a, b :: 0 <= a < b < |k3| ==> k3[a] != k3[b])
    requires (k1 + k2 + k3)[g] == k3[g - |k1| - |k2|] && (k1 + k2 + k3)[g] !in k1 && (k1 + k2 + k3)[g] !in k2
    ensures CapsFor(|k1|, |k2|, e, d, h, g).Some? ==>
              PlaceFor(|k1|, |k2|, g) < |CapsFor(|k1|, |k2|, e, d, h, g).value| &&
              ParseFloat(CapsFor(|k1|, |k2|, e, d, h, g).value[PlaceFor(|k1|, |k2|, g)]).Some?
    ensures LastGet(ThreeGroups(k1, k2, k3, e, d, h).value, (k1 + k2 + k3)[g]) ==
              if CapsFor(|k1|, |k2|, e, d, h, g).None? then None
              else Some(FieldFrom(CapsFor(|k1|, |k2|, e, d, h, g), PlaceFor(|k1|, |k2|, g)))
  {
    var j := g - |k1| - |k2|;
    var w1, w2, w3 := ThreeRuns(k1, k2, k3, e, d, h);
    GroupWritesOther(k1, e, k3[j]);
    GroupWritesOther(k2, d, k3[j]);
    GroupWritesLast(k3, h, j);
    LastGetConcat(w1 + w2, w3, k3[j]);
    LastGetConcat(w1, w2, k3[j]);
    assert CapsFor(|k1|, |k2|, e, d, h, g) == h && PlaceFor(|k1|, |k2|, g) == j;
  }

  lemma NotInConcat<T>(x: T, a: seq<T>, b: seq<T>)
    ensures x !in a + b ==> x !in a && x !in b
  {
    if x in a {
      var i :| 0 <= i < |a| && a[i] == x;
      assert (a + b)[i] == x;
    }
    if x in b {
      var i :| 0 <= i < |b| && b[i] == x;
      assert (a + b)[|a| + i] == x;
    }
  }

  /** The three runs of assignments of groups that did not fail. */
  lemma ThreeRuns(k1: seq<string>, k2: seq<string>, k3: seq<string>,
                  e: Option<seq<string>>, d: Option<seq<string>>, h: Option<seq<string>>)
    returns (w1: Fields, w2: Fields, w3: Fields)
    requires Fits(k1, e) && Fits(k2, d) && Fits(k3, h) && ThreeGroups(k1, k2, k3, e, d, h).Success?
    ensures GroupWrites(k1, e) == Success(w1) && GroupWrites(k2, d) == Success(w2) && GroupWrites(k3, h) == Success(w3)
    ensures ThreeGroups(k1, k2, k3, e, d, h).value == w1 + w2 + w3
  {
    w1, w2, w3 := GroupWrites(k1, e).value, GroupWrites(k2, d).value, GroupWrites(k3, h).value;
  }

  /** Distinct keys of three runs: each run's keys are distinct, and a key lies in one run only. */
  lemma SplitDistinct(k1: seq<string>, k2: seq<string>, k3: seq<string>, g: nat)
    requires g < |k1 + k2 + k3|
    requires forall a, b :: 0 <= a < b < |k1 + k2 + k3| ==> (k1 + k2 + k3)[a] != (k1 + k2 + k3)[b]
    ensures forall a, b :: 0 <= a < b < |k1| ==> k1[a] != k1[b]
    ensures forall a, b :: 0 <= a < b < |k2| ==> k2[a] != k2[b]
    ensures forall a, b :: 0 <= a < b < |k3| ==> k3[a] != k3[b]
    ensures g < |k1| ==> (k1 + k2 + k3)[g] == k1[g] && (k1 + k2 + k3)[g] !in k2 && (k1 + k2 + k3)[g] !in k3
    ensures |k1| <= g < |k1| + |k2| ==>
              (k1 + k2 + k3)[g] == k2[g - |k1|] && (k1 + k2 + k3)[g] !in k1 && (k1 + k2 + k3)[g] !in k3
    ensures |k1| + |k2| <= g ==> (k1 + k2 + k3)[g] == k3[g - |k1| - |k2|] && (k1 + k2 + k3)[g] !in k1 && (k1 + k2 + k3)[g] !in k2
  {
    var ks := k1 + k2 + k3;
    var n1, n2 := |k1|, |k2|;
    assert forall a :: 0 <= a < n1 ==> ks[a] == k1[a];
    assert forall a :: 0 <= a < n2 ==> ks[n1 + a] == k2[a];
    assert forall a :: 0 <= a < |k3| ==> ks[n1 + n2 + a] == k3[a];
    assert (k1 + k2 + k3)[g] !in k2 + k3 || n1 <= g by {
      if g < n1 {
        assert forall a :: 0 <= a < |k2 + k3| ==> (k2 + k3)[a] == ks[n1 + a];
      }
    }
    assert (k1 + k2 + k3)[g] !in k1 + k2 || g < n1 + n2 by {
      if n1 + n2 <= g {
        assert forall a :: 0 <= a < |k1 + k2| ==> (k1 + k2)[a] == ks[a];
      }
    }
    NotInConcat(ks[g], k2, k3);
    NotInConcat(ks[g], k1, k2);
  }

  /**
   * After the three groups, a group key is assigned exactly when its group
   * matched, and then holds `GroupField`.
   */
  lemma GroupsLast(e: Option<seq<string>>, d: Option<seq<string>>, h: Option<seq<string>>, g: nat)
    requires g < |GroupKeys| && GroupSizes(e, d, h) && GroupsOf(e, d, h).Success?
    ensures CapsFor(3, 7, e, d, h, g).Some? ==> ParseFloat(CapsFor(3, 7, e, d, h, g).value[PlaceFor(3, 7, g)]).Some?
    ensures LastGet(GroupsOf(e, d, h).value, GroupKeys[g]) ==
              if CapsFor(3, 7, e, d, h, g).None? then None else Some(GroupField(e, d, h, g))
  {
    GroupKeysDistinct();
    SplitDistinct(EllipseKeys, DopKeys, ["horacc_hdop"], g);
    ThreeLast(EllipseKeys, DopKeys, ["horacc_hdop"], e, d, h, g);
  }

  lemma GroupKeysDistinct()
    ensures forall a, b :: 0 <= a < b < |GroupKeys| ==> GroupKeys[a] != GroupKeys[b]
  {
    StateKeysDistinct();
    GroupSlotsAt();
  }

  /**
   * A group field of a dict that held `None` there, after the groups and then
   * assignments `pw` that do not touch it: `GroupField`.
   */
  lemma GroupFieldAfter(s0: Fields, e: Option<seq<string>>, d: Option<seq<string>>, h: Option<seq<string>>,
                        pw: Fields, g: nat)
    requires g < |GroupKeys| && GroupSizes(e, d, h) && GroupsOf(e, d, h).Success?
    requires GroupKeys[g] !in Keys(pw) && Get(s0, GroupKeys[g]) == Some(Null)
    ensures Get(PutAll(s0, GroupsOf(e, d, h).value + pw), GroupKeys[g]) == Some(GroupField(e, d, h, g))
  {
    var gw := GroupsOf(e, d, h).value;
    GroupsLast(e, d, h, g);
    LastGetConcat(gw, pw, GroupKeys[g]);
    PutAllGets(s0, gw + pw);
  }

  /**
   * When the groups did not fail, a group field is `None` exactly when its
   * group did not match, and otherwise the `float()` of its own capture: the
   * ellipse's three numbers in order, the DOP line's seven, HorAcc's hDOP.
   */
  lemma GroupFieldMeaning(e: Option<seq<string>>, d: Option<seq<string>>, h: Option<seq<string>>, g: nat)
    requires g < |GroupKeys| && GroupSizes(e, d, h) && GroupsOf(e, d, h).Success?
    ensures GroupField(e, d, h, g) == Null <==> (if g < 3 then e else if g < 10 then d else h).None?
    ensures g < 3 && e.Some? ==>
              ParseFloat(e.value[g]).Some? && GroupField(e, d, h, g) == Num(ParseFloat(e.value[g]).value)
    ensures 3 <= g < 10 && d.Some? ==>
              ParseFloat(d.value[g - 3]).Some? && GroupField(e, d, h, g) == Num(ParseFloat(d.value[g - 3]).value)
    ensures g == 10 && h.Some? ==>
              ParseFloat(h.value[0]).Some? && GroupField(e, d, h, g) == Num(ParseFloat(h.value[0]).value)
  {
    GroupsLast(e, d, h, g);
  }

  /** The seven DOP fields come from one line: all of them numbers, or all `None`. */
  lemma DopFieldsTogether(e: Option<seq<string>>, d: Option<seq<string>>, h: Option<seq<string>>)
    requires GroupSizes(e, d, h) && GroupsOf(e, d, h).Success?
    ensures (forall g :: 3 <= g < 10 ==> GroupField(e, d, h, g) == Null) ||
            (forall g :: 3 <= g < 10 ==> GroupField(e, d, h, g).Num?)
  {
    forall g | 3 <= g < 10
      ensures d.None? ==> GroupField(e, d, h, g) == Null
      ensures d.Some? ==> GroupField(e, d, h, g).Num?
    {
      GroupFieldMeaning(e, d, h, g);
    }
  }

  /** Group keys are `None` in the defaults. */
  lemma FlaggedGroupNull(g: nat)
    requires g < |GroupKeys|
    ensures Get(Flagged(false), GroupKeys[g]) == Some(Null)
  {
    FlaggedFacts(false);
    GroupKeysInSchema();
  }

  /** The pattern table never assigns a group key. */
  lemma PatternsMissGroupKey(section: string, k: string, ci: bool)
    requires k in GroupKeys
    ensures k !in Keys(PatternWrites(section, StatePatterns, ci))
  {
    if k in Keys(PatternWrites(section, StatePatterns, ci)) {
      PatternKeysInSchema();
      TableWritesKeys(StatePatterns, Captures(section, StatePatterns, ci), k);
    }
  }

  /** The group field `g` of `state` holds `GroupField` of the captures `e`, `d` and `h`, which did not fail. */
  predicate GroupFieldIs(state: Fields, e: Option<seq<string>>, d: Option<seq<string>>, h: Option<seq<string>>, g: nat)
  {
    g < |GroupKeys| && GroupSizes(e, d, h) && GroupsOf(e, d, h).Success? &&
    Get(state, GroupKeys[g]) == Some(GroupField(e, d, h, g))
  }

  /** The groups' and then the table's assignments over the defaults with the flag clear. */
  lemma GroupFieldOfSection(section: string, g: nat)
    requires g < |GroupKeys| && GroupsWrites(section, true).Success?
    ensures GroupFieldIs(PutAll(Flagged(false), GroupsWrites(section, true).value + PatternWrites(section, StatePatterns, true)),
                         EllipseCaptures(section, true), DopCaptures(section, true), HdopCaptures(section, true), g)
  {
    FlaggedGroupNull(g);
    PatternsMissGroupKey(section, GroupKeys[g], true);
    GroupFieldAfter(Flagged(false), EllipseCaptures(section, true), DopCaptures(section, true),
                    HdopCaptures(section, true), PatternWrites(section, StatePatterns, true), g);
  }

  /**
   * Each group field of the state section (the uncertainty ellipse, the DOP
   * line, HorAcc's hDOP) holds, after extraction with the flag clear, what
   * `GroupField` says of the section's three captures: see `GroupFieldMeaning`.
   */
  lemma StateGroupField(section: string, g: nat)
    requires g < |GroupKeys| && StateFrom(false, Some(section)).Success?
    ensures GroupFieldIs(StateFrom(false, Some(section)).value,
                         EllipseCaptures(section, true), DopCaptures(section, true), HdopCaptures(section, true), g)
  {
    GroupFieldOfSection(section, g);
  }

  /**
   * The assignments `_extract_gnss_metrics` makes to a state dict `init`:
   * the groups first, then the pattern table.
   */
  method ApplyStateWrites(section: string, init: Fields, ci: bool) returns (r: Result<Fields>)
    ensures r == Applied(init, StateWrites(section, ci))
  {
    var groups := GroupsWrites(section, ci);
    if groups.Failure? {
      return Failure(groups.error);
    }
    var m := PutAll(init, groups.value);
    m := ApplyPatterns(section, StatePatterns, m, ci);
    PutAllConcat(init, groups.value, PatternWrites(section, StatePatterns, ci));
    return Success(m);
  }

  /** The loop over the pattern table: each entry whose pattern matches assigns its converted capture. */
  method ApplyPatterns(section: string, pats: seq<FieldPattern>, init: Fields, ci: bool) returns (m: Fields)
    ensures m == PutAll(init, PatternWrites(section, pats, ci))
  {
    ghost var caps := Captures(section, pats, ci);
    m := init;
    var i := 0;
    while i < |pats|
      invariant 0 <= i <= |pats|
      invariant m == PutAll(init, TableWrites(pats[..i], caps[..i]))
    {
      m := PatternTurn(section, pats, i, ci, init, caps, m);
      i := i + 1;
    }
    assert pats[..i] == pats && caps[..i] == caps;
  }

  /** The body of the loop over the pattern table. */
  method PatternTurn(section: string, pats: seq<FieldPattern>, i: nat, ci: bool, ghost init: Fields,
                     ghost caps: seq<Option<Value>>, m: Fields) returns (m': Fields)
    requires i < |pats| && caps == Captures(section, pats, ci)
    requires m == PutAll(init, TableWrites(pats[..i], caps[..i]))
    ensures m' == PutAll(init, TableWrites(pats[..i + 1], caps[..i + 1]))
  {
    var capture := FirstCapture(section, pats[i], ci);
    CapturesAt(section, pats, ci, i);
    PatternStep(pats, caps, i, init);
    if capture.Some? {
      m' := Put(m, pats[i].key, Convert(pats[i].conv, capture.value));
    } else {
      m' := m;
    }
  }

  /** One turn of the loop over the pattern table. */
  lemma PatternStep(pats: seq<FieldPattern>, caps: seq<Option<Value>>, i: nat, init: Fields)
    requires |caps| == |pats| && i < |pats|
    ensures var m := PutAll(init, TableWrites(pats[..i], caps[..i]));
            var m' := PutAll(init, TableWrites(pats[..i + 1], caps[..i + 1]));
            match caps[i]
            case None => m' == m
            case Some(v) => m' == Put(m, pats[i].key, v)
  {
    var done := TableWrites(pats[..i], caps[..i]);
    TableWritesStep(pats, caps, i);
    match caps[i]
    case None =>
      AppendEmpty(done, TableWrite(pats[i].key, caps[i]));
    case Some(v) =>
      PutAllSnoc(init, done, pats[i].key, v);
  }

  /** `_extract_gnss_metrics`: the main section and the state section of a capture. */
  method ExtractGnssMetrics(content: string, apAddress: string) returns (main: Fields, state: Result<Fields>)
    ensures main == MainMetrics(content, apAddress)
    ensures state == StateMetrics(content)
  {
    main := MainMetrics(content, apAddress);
    var noGnss := NoGnssDetected(content);
    state := Success(Flagged(noGnss));
    if noGnss {
      return;
    }
    var section := StateSection(content);
    if section.Some? {
      state := ApplyStateWrites(section.value, state.value, true);
    }
  }
}
