/**
 * The `show version` and `show inventory` sections of a capture: two
 * fixed-shape dicts that start with every field `None` and are filled from
 * the lines of the command's output.
 */
module Device {
  import opened Common
  import opened Text
  import opened Json
  import opened Scan

  // ---------------------------------------------------------------- labelled text fields

  /** One `label\s*:\s*([^\n]+)` field: its key and its label. */
  datatype TextField = TextField(key: string, tag: string)

  /** What `v.strip()` stores: text without surrounding whitespace, on one line. */
  predicate CleanText(v: Value)
  {
    v.Str? && Trimmed(v.s) && NoBreak(v.s)
  }

  /** Every assignment stores stripped one-line text. */
  predicate CleanTexts(w: Fields)
  {
    forall i :: 0 <= i < |w| ==> CleanText(w[i].1)
  }

  /** The stripped first match of one field's pattern, if it matches. */
  function TextValue(section: string, f: TextField, ci: bool): (r: Option<Value>)
    ensures r.Some? ==> CleanText(r.value)
  {
    match ColonSearch(section, f.tag, ci)
    case None => None
    case Some(g) => Some(Stripped(g))
  }

  function TextWrite(section: string, f: TextField, ci: bool): (r: Fields)
    ensures |r| <= 1 && CleanTexts(r)
    ensures |r| == 1 ==> r[0].0 == f.key
  {
    match TextValue(section, f, ci)
    case None => []
    case Some(v) => [(f.key, v)]
  }

  /** The assignments of a field table, in table order. */
  function TextWrites(section: string, fs: seq<TextField>, ci: bool): (r: Fields)
    ensures CleanTexts(r)
    ensures forall k :: (forall i :: 0 <= i < |fs| ==> fs[i].key != k) ==> k !in Keys(r)
  {
    if |fs| == 0 then []
    else
      var prev := TextWrites(section, fs[..|fs| - 1], ci);
      var w := TextWrite(section, fs[|fs| - 1], ci);
      KeysAppend(prev, w);
      CleanAppend(prev, w);
      prev + w
  }

  lemma CleanAppend(a: Fields, b: Fields)
    requires CleanTexts(a) && CleanTexts(b)
    ensures CleanTexts(a + b)
  {
    assert forall i :: 0 <= i < |a + b| ==> (a + b)[i] == if i < |a| then a[i] else b[i - |a|];
  }

  lemma TextWritesStep(section: string, fs: seq<TextField>, ci: bool, i: nat)
    requires i < |fs|
    ensures TextWrites(section, fs[..i + 1], ci) == TextWrites(section, fs[..i], ci) + TextWrite(section, fs[i], ci)
  {
    assert fs[..i + 1][..i] == fs[..i];
  }

  /** With distinct keys in the table, an entry's key holds that entry's own match. */
  lemma TextWritesLast(section: string, fs: seq<TextField>, ci: bool, j: nat)
    requires j < |fs|
    requires forall a, b :: 0 <= a < b < |fs| ==> fs[a].key != fs[b].key
    ensures LastGet(TextWrites(section, fs, ci), fs[j].key) == TextValue(section, fs[j], ci)
  {
    var k := fs[j].key;
    var a, b := fs[..j + 1], fs[j + 1..];
    assert fs == a + b;
    TextWritesAppend(section, a, b, ci);
    TextWritesUnset(section, b, ci, k);
    TextWritesUnset(section, fs[..j], ci, k);
    TextWritesGet(section, fs, ci, j, k);
    LastGetConcat(TextWrites(section, a, ci), TextWrites(section, b, ci), k);
  }

  /** The assignments of two tables one after the other. */
  lemma {:induction false} TextWritesAppend(section: string, a: seq<TextField>, b: seq<TextField>, ci: bool)
    ensures TextWrites(section, a + b, ci) == TextWrites(section, a, ci) + TextWrites(section, b, ci)
    decreases |b|
  {
    if |b| == 0 {
      assert a + b == a;
    } else {
      var n := |b| - 1;
      assert (a + b)[..|a + b| - 1] == a + b[..n];
      TextWritesAppend(section, a, b[..n], ci);
    }
  }

  /** One more field of the table: its key now holds its match, if any. */
  lemma TextWritesGet(section: string, fs: seq<TextField>, ci: bool, n: nat, k: string)
    requires n < |fs|
    ensures LastGet(TextWrites(section, fs[..n + 1], ci), k) ==
              if k == fs[n].key && TextValue(section, fs[n], ci).Some? then TextValue(section, fs[n], ci)
              else LastGet(TextWrites(section, fs[..n], ci), k)
  {
    TextWritesStep(section, fs, ci, n);
    LastGetConcat(TextWrites(section, fs[..n], ci), TextWrite(section, fs[n], ci), k);
    TextWriteLast(section, fs[n], ci, k);
  }

  /** A key no field of the table names is never assigned. */
  lemma TextWritesUnset(section: string, fs: seq<TextField>, ci: bool, k: string)
    requires forall a :: 0 <= a < |fs| ==> fs[a].key != k
    ensures LastGet(TextWrites(section, fs, ci), k).None?
  {
  }

  lemma TextWriteLast(section: string, f: TextField, ci: bool, k: string)
    ensures LastGet(TextWrite(section, f, ci), k) == if k == f.key then TextValue(section, f, ci) else None
  {
  }

  /** The loop over a field table: each field whose pattern matches is assigned its stripped text. */
  method ApplyTextFields(section: string, fs: seq<TextField>, ci: bool, init: Fields) returns (m: Fields)
    ensures m == PutAll(init, TextWrites(section, fs, ci))
  {
    m := init;
    var i := 0;
    while i < |fs|
      invariant 0 <= i <= |fs|
      invariant m == PutAll(init, TextWrites(section, fs[..i], ci))
    {
      ghost var done := TextWrites(section, fs[..i], ci);
      TextWritesStep(section, fs, ci, i);
      var value := TextValue(section, fs[i], ci);
      if value.Some? {
        assert TextWrite(section, fs[i], ci) == [(fs[i].key, value.value)];
        PutAllSnoc(init, done, fs[i].key, value.value);
        m := Put(m, fs[i].key, value.value);
      } else {
        assert done + TextWrite(section, fs[i], ci) == done;
      }
      i := i + 1;
    }
    assert fs[..i] == fs;
  }

  // ---------------------------------------------------------------- show version

  const VersionKeys: seq<string> := [
    "ver_ap_name", "ap_serial_number", "ap_model", "ap_image_family", "ap_image_string",
    "ap_running_image", "ap_uptime_days", "ap_uptime_hours", "ap_uptime_minutes",
    "last_reload_time", "last_reload_reason", "ethernet_mac_address", "cloud_id"]

  /** `_get_default_show_version_metrics`: every field `None`. */
  function DefaultVersion(): (r: Fields)
    ensures Keys(r) == VersionKeys
    ensures forall k :: k in VersionKeys ==> Get(r, k) == Some(Null)
  {
    NullFields(VersionKeys)
  }

  /**
   * `(^|\n)([^\n#]+)#show version[\s\S]+?\n\2#` (any case, the back-reference
   * included) with its prompt starting at `g`: the whole match, from `p`
   * through the `#` of the next prompt line.
   */
  function VersionPromptFrom(s: string, p: nat, g: nat): (r: Option<string>)
    requires p <= g
  {
    match PromptEnd(s, g)
    case None => None
    case Some(e) =>
      if !AtCI(s, e + 1, "show version") then None
      else
        var prompt := s[g..e];
        match FindFrom(s, "\n" + prompt + "#", e + 14, true)
        case None => None
        case Some(t) => Some(s[p..t + |prompt| + 2])
  }

  /** The prompt alternative at offset `p`: `^` first, then `\n`. */
  function VersionPromptAt(s: string, p: nat): Option<string>
  {
    var first := if p == 0 then VersionPromptFrom(s, p, 0) else None;
    if first.Some? then first
    else if p < |s| && s[p] == '\n' then VersionPromptFrom(s, p, p + 1)
    else None
  }

  /** `\*{5} show version \*{5}[\s\S]+?(?=\n\*{5} )` (any case) at offset `p`. */
  function VersionStarAt(s: string, p: nat): Option<string>
  {
    if !AtCI(s, p, "***** show version *****") then None
    else
      match FindFrom(s, "\n***** ", p + 25, false)
      case None => None
      case Some(t) => Some(s[p..t])
  }

  /** The `show version` output: the prompt form, else the asterisk form. */
  function VersionSection(content: string): Option<string>
  {
    match Search(content, VersionPromptAt)
    case Some(section) => Some(section)
    case None => Search(content, VersionStarAt)
  }

  /** `(\d+)lit` at offset `i`: the number and the offset after `lit`. */
  function DigitsThen(s: string, i: nat, lit: string): (r: Option<(nat, nat)>)
    ensures r.Some? ==> r.value.1 <= |s|
  {
    if i > |s| then None
    else
      var e := RunEnd(s, i, Digit);
      if e > i && At(s, e, lit) then Some((DigitsValue(s[i..e]), e + |lit|)) else None
  }

  /** ` uptime is (\d+) days, (\d+) hours, (\d+) minutes` at offset `t`. */
  function UptimeTail(s: string, t: nat): Option<(nat, nat, nat)>
  {
    if !At(s, t, " uptime is ") then None
    else
      match DigitsThen(s, t + 11, " days, ")
      case None => None
      case Some((days, a)) =>
        match DigitsThen(s, a, " hours, ")
        case None => None
        case Some((hours, b)) =>
          match DigitsThen(s, b, " minutes")
          case None => None
          case Some((minutes, _)) => Some((days, hours, minutes))
  }

  /** The lazy `(.*?)` from line start `l`: the shortest one-line name the tail can follow. */
  function UptimeFrom(s: string, l: nat, t: nat): (r: Option<(string, (nat, nat, nat))>)
    requires l <= t <= |s| && forall j :: l <= j < t ==> s[j] != '\n'
    ensures r.Some? ==> NoBreak(r.value.0)
    decreases |s| - t
  {
    match UptimeTail(s, t)
    case Some(u) => Some((s[l..t], u))
    case None =>
      if t < |s| && s[t] != '\n' then
        var r := UptimeFrom(s, l, t + 1);
        r
      else None
  }

  /** `^(.*?) uptime is ...` with `re.MULTILINE`: only at the start of a line. */
  function UptimeAt(s: string, p: nat): Option<(string, (nat, nat, nat))>
  {
    if p <= |s| && (p == 0 || s[p - 1] == '\n') then UptimeFrom(s, p, p) else None
  }

  /** The four assignments of the uptime line, in order. */
  predicate UptimeRun(u: Fields)
  {
    |u| == 4 && u[0].0 == "ver_ap_name" && u[1].0 == "ap_uptime_days" && u[2].0 == "ap_uptime_hours" &&
    u[3].0 == "ap_uptime_minutes"
  }

  /** The name before ` uptime is`, stripped, then the three numbers of its uptime. */
  function UptimeWrites(section: string): (r: Fields)
    ensures r == [] || UptimeRun(r)
    ensures |r| == 4 ==> r[0].1.Str? && r[1].1.Int? && r[2].1.Int? && r[3].1.Int?
  {
    var m := Search<(string, (nat, nat, nat))>(section, UptimeAt);
    if m.None? then []
    else
      var (name, (days, hours, minutes)) := m.value;
      [("ver_ap_name", Str(Strip(name))), ("ap_uptime_days", Int(days)),
       ("ap_uptime_hours", Int(hours)), ("ap_uptime_minutes", Int(minutes))]
  }

  /** `int()` of a run of decimal digits never raises, so the uptime's `except` is never taken. */
  lemma ParseIntDigits(s: string)
    requires IsDigits(s)
    ensures ParseInt(s) == Some(DigitsValue(s) as int)
  {
    StripDigits(s);
    assert s[0] != '-' && s[0] != '+';
  }

  const VersionFields: seq<TextField> := [
    TextField("ap_serial_number", "Top Assembly Serial Number"),
    TextField("ap_model", "Product/Model Number"),
    TextField("ap_running_image", "AP Running Image"),
    TextField("last_reload_time", "Last reload time"),
    TextField("ethernet_mac_address", "Base ethernet MAC Address"),
    TextField("cloud_id", "Cloud ID")]

  /** `Cisco AP Software, \(([^)]+)\),\s*([^\n]+)` at offset `p`: the family and the offset of its `)`. */
  function ImageAt(s: string, p: nat): (r: Option<(string, nat)>)
    ensures r.Some? ==> r.value.1 + 2 <= |s|
  {
    if !At(s, p, "Cisco AP Software, (") then None
    else
      var a := p + 20;
      var e := RunEnd(s, a, NonCloseParen);
      if e > a && e + 1 < |s| && s[e] == ')' && s[e + 1] == ',' && RestOfLine(s, e + 2).Some?
      then Some((s[a..e], e))
      else None
  }

  /**
   * The image family, stripped, and the image string: the rest of the line
   * after `), `, stripped, which is not the second capture when the `\s*`
   * runs across a line feed.
   */
  function ImageWrites(section: string): (r: Fields)
    ensures r == [] || (|r| == 2 && r[0].0 == "ap_image_family" && r[1].0 == "ap_image_string")
    ensures |r| == 2 ==> r[0].1.Str? && Trimmed(r[0].1.s) && CleanText(r[1].1)
  {
    var m := Search<(string, nat)>(section, ImageAt);
    if m.None? then []
    else
      var (family, e) := m.value;
      var rest := FirstPiece(section[e + 2..], '\n');
      FirstPieceNoBreak(section[e + 2..]);
      [("ap_image_family", Str(Strip(family))), ("ap_image_string", Stripped(rest))]
  }

  /** `t.strip()` as a value. */
  function Stripped(t: string): (v: Value)
    ensures v.Str? && Trimmed(v.s) && (NoBreak(t) ==> NoBreak(v.s))
  {
    Str(Strip(t))
  }

  lemma FirstPieceNoBreak(s: string)
    ensures NoBreak(FirstPiece(s, '\n'))
  {
    assert '\n' !in Split(s, '\n')[0];
  }

  /**
   * `^Last reload reason\s*:\s*(.*)$` with `re.MULTILINE` at offset `p`: the
   * whole match and the capture.
   */
  function ReasonAt(s: string, p: nat): (r: Option<(string, string)>)
    ensures r.Some? ==> NoBreak(r.value.1)
    ensures r.Some? && |r.value.1| > 0 ==> !IsSpace(r.value.1[0])
  {
    if p > |s| || !(p == 0 || s[p - 1] == '\n') || !At(s, p, "Last reload reason") then None
    else
      var a := SkipSpace(s, p + 18);
      if a < |s| && s[a] == ':' then
        var q := SkipSpace(s, a + 1);
        var e := LineEnd(s, q);
        Some((s[p..e], s[q..e]))
      else None
  }

  /**
   * The last reload reason: `None` when the line is the bare label or nothing
   * follows the colon; otherwise the text after it, not stripped at its end.
   */
  function ReasonWrite(section: string): (r: Fields)
    ensures |r| <= 1 && forall i :: 0 <= i < |r| ==> r[i].0 == "last_reload_reason"
    ensures |r| == 1 ==> r[0].1 == Null ||
                         (r[0].1.Str? && |r[0].1.s| > 0 && !IsSpace(r[0].1.s[0]) && NoBreak(r[0].1.s))
  {
    var m := Search<(string, string)>(section, ReasonAt);
    if m.None? then []
    else
      var (whole, g) := m.value;
      if Strip(whole) == "Last reload reason :" || Strip(g) == "" then [("last_reload_reason", Null)]
      else [("last_reload_reason", Str(g))]
  }

  /** Every assignment `_extract_show_version_metrics` makes from a section, in order. */
  function VersionParts(section: string): (r: seq<Fields>)
    ensures VersionShape(r)
  {
    var u, t, i, w := UptimeWrites(section), TextWrites(section, VersionFields, false), ImageWrites(section), ReasonWrite(section);
    VersionRuns(u, t, i, w);
    [u, t, i, w]
  }

  lemma VersionRuns(u: Fields, t: Fields, i: Fields, w: Fields)
    requires u == [] || UptimeRun(u)
    requires |u| == 4 ==> u[0].1.Str? && u[1].1.Int? && u[2].1.Int? && u[3].1.Int?
    requires forall k :: (forall f :: 0 <= f < |VersionFields| ==> VersionFields[f].key != k) ==> k !in Keys(t)
    requires i == [] || (|i| == 2 && i[0].0 == "ap_image_family" && i[1].0 == "ap_image_string")
    requires |w| <= 1 && forall n :: 0 <= n < |w| ==> w[n].0 == "last_reload_reason"
    ensures VersionShape([u, t, i, w])
  {
    ReasonOnly(w);
    VersionFieldKeysAre();
    TableKeys(t, VersionFields, VersionFieldKey);
  }

  /** The keys of the image line. */
  predicate ImageKey(k: string)
  {
    k == "ap_image_family" || k == "ap_image_string"
  }

  /**
   * Which keys each run of assignments may touch: the uptime line its four
   * keys in order, the table its own keys, the image line its two keys and
   * the reload reason its one.
   */
  predicate VersionShape(parts: seq<Fields>)
  {
    VersionShapeFacts(parts) == true
  }

  /** One atom for the prover: the conjuncts above. */
  function VersionShapeFacts(parts: seq<Fields>): bool
  {
    |parts| == 4 &&
    (parts[0] == [] || UptimeRun(parts[0])) &&
    (|parts[0]| == 4 ==> parts[0][0].1.Str? && parts[0][1].1.Int? && parts[0][2].1.Int? && parts[0][3].1.Int?) &&
    (forall i :: 0 <= i < |parts[1]| ==> VersionFieldKey(parts[1][i].0)) &&
    (forall i :: 0 <= i < |parts[2]| ==> ImageKey(parts[2][i].0)) &&
    (|parts[3]| <= 1 && LastGet(parts[3], "last_reload_reason") == (if |parts[3]| == 1 then Some(parts[3][0].1) else None)) &&
    ("last_reload_reason" !in Keys(parts[3])) == (|parts[3]| == 0) &&
    (forall k :: k != "last_reload_reason" ==> k !in Keys(parts[3]))
  }

  lemma ReasonOnly(w: Fields)
    requires |w| <= 1 && forall i :: 0 <= i < |w| ==> w[i].0 == "last_reload_reason"
    ensures LastGet(w, "last_reload_reason") == (if |w| == 1 then Some(w[0].1) else None)
    ensures ("last_reload_reason" !in Keys(w)) == (|w| == 0)
    ensures forall k :: k != "last_reload_reason" ==> k !in Keys(w)
  {
  }

  /** `_extract_show_version_metrics` as a function of the capture. */
  function VersionMetrics(content: string): (r: Fields)
    ensures Keys(r) == VersionKeys
    ensures VersionSection(content).None? ==> r == DefaultVersion()
  {
    match VersionSection(content)
    case None => DefaultVersion()
    case Some(section) =>
      var parts := VersionParts(section);
      VersionPartsWithin(parts);
      FlattenWithin(parts, VersionKeys);
      PutAllKeep(DefaultVersion(), Flatten(parts));
      PutAll(DefaultVersion(), Flatten(parts))
  }

  /** The keys of the labelled `show version` fields. */
  predicate VersionFieldKey(k: string)
  {
    k == "ap_serial_number" || k == "ap_model" || k == "ap_running_image" || k == "last_reload_time" ||
    k == "ethernet_mac_address" || k == "cloud_id"
  }

  lemma VersionFieldKeysAre()
    ensures forall f :: 0 <= f < |VersionFields| ==> VersionFieldKey(VersionFields[f].key)
  {
  }

  lemma VersionFieldKeyIn(k: string)
    requires VersionFieldKey(k)
    ensures k in VersionKeys
  {
  }

  /** The `j`-th key of the uptime line. */
  predicate UptimeKey(j: nat, k: string)
  {
    (j == 0 && k == "ver_ap_name") || (j == 1 && k == "ap_uptime_days") || (j == 2 && k == "ap_uptime_hours") ||
    (j == 3 && k == "ap_uptime_minutes")
  }

  lemma OtherKeyIn(k: string)
    requires k == "ver_ap_name" || k == "ap_uptime_days" || k == "ap_uptime_hours" || k == "ap_uptime_minutes" ||
             k == "ap_image_family" || k == "ap_image_string" || k == "last_reload_reason"
    ensures k in VersionKeys
  {
  }

  lemma VersionPartsWithin(parts: seq<Fields>)
    requires VersionShape(parts)
    ensures forall i :: 0 <= i < |parts| ==> Within(parts[i], VersionKeys)
  {
    forall r, i | 0 <= r < 4 && 0 <= i < |parts[r]| ensures parts[r][i].0 in VersionKeys {
      var k := parts[r][i].0;
      if r == 1 {
        VersionFieldKeyIn(k);
      } else if r == 3 {
        assert k in Keys(parts[3]) by { assert Keys(parts[3])[i] == k; }
        OtherKeyIn(k);
      } else {
        OtherKeyIn(k);
      }
    }
  }

  /** Only the uptime line assigns the name and the uptime numbers. */
  lemma UptimeOnly(parts: seq<Fields>, k: string)
    requires VersionShape(parts) && !VersionFieldKey(k) && !ImageKey(k) && k != "last_reload_reason"
    ensures LastGet(Flatten(parts), k) == LastGet(parts[0], k)
  {
    assert k !in Keys(parts[1]) by {
      assert forall i :: 0 <= i < |parts[1]| ==> parts[1][i].0 != k;
    }
    assert k !in Keys(parts[2]) by {
      assert forall i :: 0 <= i < |parts[2]| ==> parts[2][i].0 != k;
    }
    LastGetOnly(parts, 0, k);
  }

  lemma UptimeLast(u: Fields, j: nat, k: string)
    requires UptimeRun(u) && UptimeKey(j, k)
    ensures LastGet(u, k) == Some(u[j].1)
  {
    var a, b := u[..j + 1], u[j + 1..];
    assert u == a + b;
    forall i | 0 <= i < |b| ensures b[i].0 != k {
      assert b[i] == u[j + 1 + i];
      if j + 1 + i == 1 {
      } else if j + 1 + i == 2 {
      } else {
        assert j + 1 + i == 3;
      }
    }
    LastGetUntouched(a, b, k);
  }

  predicate SomeStr(o: Option<Value>) { o.Some? && o.value.Str? }

  predicate SomeInt(o: Option<Value>) { o.Some? && o.value.Int? }

  /**
   * The name and the three uptime numbers come from one line and are set
   * together: all four `None`, or the name as text and three integers.
   */
  lemma UptimeTogether(content: string)
    ensures UptimeSet(VersionMetrics(content))
  {
    UptimeDefaults();
    match VersionSection(content)
    case None =>
    case Some(section) =>
      UptimeIn(DefaultVersion(), section);
  }

  /** The name and the uptime numbers are all `None`, or a text and three integers. */
  predicate UptimeSet(r: Fields)
  {
    UptimeNull(r) ||
    (SomeStr(Get(r, "ver_ap_name")) && SomeInt(Get(r, "ap_uptime_days")) &&
     SomeInt(Get(r, "ap_uptime_hours")) && SomeInt(Get(r, "ap_uptime_minutes")))
  }

  predicate UptimeNull(r: Fields)
  {
    Get(r, "ver_ap_name") == Some(Null) && Get(r, "ap_uptime_days") == Some(Null) &&
    Get(r, "ap_uptime_hours") == Some(Null) && Get(r, "ap_uptime_minutes") == Some(Null)
  }

  lemma UptimeDefaults()
    ensures UptimeNull(DefaultVersion())
  {
    OtherKeyIn("ver_ap_name");
    OtherKeyIn("ap_uptime_days");
    OtherKeyIn("ap_uptime_hours");
    OtherKeyIn("ap_uptime_minutes");
  }

  /** The assignments of a section set the name and the uptime numbers together. */
  lemma UptimeIn(d: Fields, section: string)
    ensures UptimeNull(d) ==> UptimeSet(PutAll(d, Flatten(VersionParts(section))))
  {
    if UptimeNull(d) {
      UptimeValues(d, VersionParts(section));
    }
  }

  lemma UptimeValues(d: Fields, parts: seq<Fields>)
    requires VersionShape(parts) && UptimeNull(d)
    ensures UptimeSet(PutAll(d, Flatten(parts)))
  {
    UptimeGet(d, parts, 0, "ver_ap_name");
    UptimeGet(d, parts, 1, "ap_uptime_days");
    UptimeGet(d, parts, 2, "ap_uptime_hours");
    UptimeGet(d, parts, 3, "ap_uptime_minutes");
  }

  lemma UptimeGet(d: Fields, parts: seq<Fields>, j: nat, k: string)
    requires VersionShape(parts) && UptimeKey(j, k) && Get(d, k) == Some(Null)
    ensures Get(PutAll(d, Flatten(parts)), k) == if |parts[0]| == 4 then Some(parts[0][j].1) else Some(Null)
  {
    UptimeOnly(parts, k);
    PutAllFacts(d, Flatten(parts));
    if |parts[0]| == 4 {
      UptimeLast(parts[0], j, k);
    } else {
      assert LastGet(parts[0], k).None?;
    }
  }

  /**
   * The last reload reason holds `None`, or the text after the colon: not
   * empty, starting with a non-space character, on one line.
   */
  lemma ReasonShape(content: string)
    ensures ReasonValue(Get(VersionMetrics(content), "last_reload_reason"))
  {
    ReasonDefault();
    match VersionSection(content)
    case None =>
    case Some(section) =>
      ReasonIn(DefaultVersion(), section);
  }

  /** `None`, or a non-empty one-line text that starts with a non-space character. */
  predicate ReasonValue(v: Option<Value>)
  {
    v.Some? && (v.value == Null || (v.value.Str? && |v.value.s| > 0 && !IsSpace(v.value.s[0]) && NoBreak(v.value.s)))
  }

  lemma ReasonDefault()
    ensures ReasonValue(Get(DefaultVersion(), "last_reload_reason"))
  {
    assert "last_reload_reason" in VersionKeys;
  }

  /** The assignments of a section keep the reload reason in shape. */
  lemma ReasonIn(d: Fields, section: string)
    ensures ReasonValue(Get(d, "last_reload_reason")) ==>
              ReasonValue(Get(PutAll(d, Flatten(VersionParts(section))), "last_reload_reason"))
  {
    var parts := VersionParts(section);
    assert parts[3] == ReasonWrite(section);
    ReasonOnlyIn(parts);
    PutAllFacts(d, Flatten(parts));
  }

  lemma ReasonOnlyIn(parts: seq<Fields>)
    requires VersionShape(parts)
    ensures LastGet(Flatten(parts), "last_reload_reason") == LastGet(parts[3], "last_reload_reason")
  {
    var k := "last_reload_reason";
    assert !VersionFieldKey(k);
    assert k !in Keys(parts[1]) by {
      assert forall i :: 0 <= i < |parts[1]| ==> parts[1][i].0 != k;
    }
    assert k !in Keys(parts[0]) by {
      assert forall i :: 0 <= i < |parts[0]| ==> parts[0][i].0 != k;
    }
    assert k !in Keys(parts[2]) by {
      assert forall i :: 0 <= i < |parts[2]| ==> parts[2][i].0 != k;
    }
    LastGetOnly(parts, 3, k);
  }

  /** Each labelled field of `show version` holds its stripped first match, or `None`. */
  lemma VersionFieldValue(content: string, j: nat)
    requires j < |VersionFields| && VersionSection(content).Some?
    ensures Get(VersionMetrics(content), VersionFields[j].key) ==
              Some(match TextValue(VersionSection(content).value, VersionFields[j], false)
                   case None => Null case Some(v) => v)
  {
    VersionFieldIn(VersionSection(content).value, j);
  }

  lemma VersionFieldIn(section: string, j: nat)
    requires j < |VersionFields|
    ensures Get(PutAll(DefaultVersion(), Flatten(VersionParts(section))), VersionFields[j].key) ==
              Some(match TextValue(section, VersionFields[j], false) case None => Null case Some(v) => v)
  {
    var k := VersionFields[j].key;
    var parts := VersionParts(section);
    VersionFieldKeysAre();
    VersionFieldKeyIn(k);
    PutAllFacts(DefaultVersion(), Flatten(parts));
    TableOnly(parts, k);
    VersionFieldsDistinct();
    TextWritesLast(section, VersionFields, false, j);
  }

  lemma TableOnly(parts: seq<Fields>, k: string)
    requires VersionShape(parts) && VersionFieldKey(k)
    ensures LastGet(Flatten(parts), k) == LastGet(parts[1], k)
  {
    assert k !in Keys(parts[0]) by {
      assert forall i :: 0 <= i < |parts[0]| ==> parts[0][i].0 != k;
    }
    assert k !in Keys(parts[2]) by {
      assert forall i :: 0 <= i < |parts[2]| ==> parts[2][i].0 != k;
    }
    LastGetOnly(parts, 1, k);
  }

  lemma VersionFieldsDistinct()
    ensures forall a, b :: 0 <= a < b < |VersionFields| ==> VersionFields[a].key != VersionFields[b].key
  {
    assert VersionFields[0].key[3] == 's' && VersionFields[2].key[3] == 'r' && VersionFields[3].key[3] == 't';
    assert VersionFields[1].key[0] == 'a' && VersionFields[5].key[0] == 'c';
  }

  /** `_extract_show_version_metrics`: the defaults, then each assignment in source order. */
  method ExtractVersion(content: string) returns (m: Fields)
    ensures m == VersionMetrics(content)
  {
    m := DefaultVersion();
    var found := VersionSection(content);
    if found.None? {
      return;
    }
    var section := found.value;
    ghost var d := m;
    ghost var parts := VersionParts(section);
    var u := UptimeWrites(section);
    m := PutAll(m, u);
    m := ApplyTextFields(section, VersionFields, false, m);
    var image := ImageWrites(section);
    m := PutAll(m, image);
    var reason := ReasonWrite(section);
    m := PutAll(m, reason);
    Flatten4(u, TextWrites(section, VersionFields, false), image, reason);
    PutAllConcat(d, u, TextWrites(section, VersionFields, false));
    PutAllConcat(d, u + TextWrites(section, VersionFields, false), image);
    PutAllConcat(d, u + TextWrites(section, VersionFields, false) + image, reason);
  }

  // ---------------------------------------------------------------- show inventory

  const InventoryKeys: seq<string> := [
    "inv_parser_found", "inv_ap_type", "inv_ap_descr", "inv_ap_pid", "inv_ap_vid", "inv_ap_serial",
    "inv_ap_devid", "inv_usb_detected", "inv_usb_status", "inv_usb_pid", "inv_usb_vid",
    "inv_usb_manuf", "inv_usb_descr", "inv_usb_serial", "inv_usb_max_power"]

  /** `_get_default_show_inventory_metrics`: not found, every other field `None`. */
  function DefaultInventory(): (r: Fields)
    ensures Keys(r) == InventoryKeys
    ensures Get(r, "inv_parser_found") == Some(Bool(false))
    ensures forall k :: k in InventoryKeys && k != "inv_parser_found" ==> Get(r, k) == Some(Null)
  {
    var d := NullFields(InventoryKeys);
    assert InventoryKeys[0] == "inv_parser_found";
    Put(d, "inv_parser_found", Bool(false))
  }

  /** The found flag is the first key and no other. */
  lemma FoundKeyFirst()
    ensures InventoryKeys[0] == "inv_parser_found"
    ensures forall i :: 1 <= i < |InventoryKeys| ==> InventoryKeys[i] != "inv_parser_found"
  {
    assert forall i :: 1 <= i < |InventoryKeys| ==> |InventoryKeys[i]| != 16 || InventoryKeys[i][4] == 'u';
  }

  /** `([^\n#]+)#\s*show\s+inventory` (any case) with its prompt starting at `g`: the prompt and the match end. */
  function InvCommandFrom(s: string, g: nat): (r: Option<(string, nat)>)
    ensures r.Some? ==> r.value.1 <= |s|
  {
    match PromptEnd(s, g)
    case None => None
    case Some(e) =>
      var a := SkipSpace(s, e + 1);
      if !AtCI(s, a, "show") then None
      else
        var b := SkipSpace(s, a + 4);
        if b == a + 4 || !AtCI(s, b, "inventory") then None
        else Some((s[g..e], b + 9))
  }

  /** `(?:^|\n)` then the command at offset `p`: `^` first, then `\n`. */
  function InvCommandAt(s: string, p: nat): (r: Option<(string, nat)>)
    ensures r.Some? ==> r.value.1 <= |s|
  {
    var first := if p == 0 then InvCommandFrom(s, 0) else None;
    if first.Some? then first
    else if p < |s| && s[p] == '\n' then InvCommandFrom(s, p + 1)
    else None
  }

  /**
   * The output after the command: up to the first `\n` + prompt + `#`, or
   * at most 2000 characters when the prompt does not come back. Either way
   * the section never holds the next prompt line.
   */
  function AfterCommand(content: string, prompt: string, cmd: nat): (r: string)
    requires cmd <= |content|
    ensures cmd + |r| <= |content| && r == content[cmd..cmd + |r|]
    ensures !Contains(r, "\n" + prompt + "#")
    ensures |r| <= 2000 || At(content, cmd + |r|, "\n" + prompt + "#")
  {
    var rest := content[cmd..];
    var p := "\n" + prompt + "#";
    var r := match Find(rest, p)
      case Some(t) => rest[..t]
      case None => if |rest| <= 2000 then rest else rest[..2000];
    PrefixAvoids(rest, p, |r|);
    r
  }

  /** A prefix of `s` that ends no later than the first `p` holds no `p`. */
  lemma PrefixAvoids(s: string, p: string, n: nat)
    requires n <= |s| && |p| > 0
    requires Find(s, p).Some? ==> n <= Find(s, p).value
    ensures !Contains(s[..n], p)
  {
    var t := s[..n];
    var f := FindFrom(s, p, 0, false);
    if FindFrom(t, p, 0, false).Some? {
      var j := FindFrom(t, p, 0, false).value;
      assert t[j..j + |p|] == s[j..j + |p|];
      assert AtCase(s, j, p, false);
    }
  }

  /** `\*{5}\s*show\s+inventory\s*\*{5}([\s\S]+?)(?=\n\*{5}|\Z)` (any case) at offset `p`: the capture. */
  function InvStarAt(s: string, p: nat): (r: Option<string>)
    ensures r.Some? ==> |r.value| > 0 && !Contains(r.value[1..], "\n*****")
  {
    if !At(s, p, "*****") then None
    else
      var a := SkipSpace(s, p + 5);
      if !AtCI(s, a, "show") then None
      else
        var b := SkipSpace(s, a + 4);
        if b == a + 4 || !AtCI(s, b, "inventory") then None
        else
          var c := SkipSpace(s, b + 9);
          if !At(s, c, "*****") || c + 5 >= |s| then None
          else
            var d := c + 5;
            var rest := s[d + 1..];
            var n := match Find(rest, "\n*****") case Some(t) => t case None => |rest|;
            PrefixAvoids(rest, "\n*****", n);
            assert s[d..d + 1 + n][1..] == rest[..n];
            Some(s[d..d + 1 + n])
  }

  /** The `show inventory` output: after the prompt form of the command, else the asterisk form. */
  function InventorySection(content: string): Option<string>
  {
    var command := Search<(string, nat)>(content, InvCommandAt);
    if command.Some? then Some(AfterCommand(content, Strip(command.value.0), command.value.1))
    else Search(content, InvStarAt)
  }

  /**
   * `\s*([^,]+),` at offset `i`: the bounds of the capture, which ends at a
   * comma. When no text sits before the comma, the `\s*` gives back its last
   * whitespace character to the capture.
   */
  function UntilComma(s: string, i: nat): (r: Option<(nat, nat)>)
    requires i <= |s|
    ensures r.Some? ==> i <= r.value.0 < r.value.1 < |s| && s[r.value.1] == ','
    ensures r.Some? ==> forall j :: r.value.0 <= j < r.value.1 ==> s[j] != ','
  {
    var a := SkipSpace(s, i);
    var e := RunEnd(s, a, NonComma);
    if e == |s| then None
    else if e > a then Some((a, e))
    else if a > i then Some((a - 1, e))
    else None
  }

  /** `NAME\s*:\s*([^,]+),\s*DESCR\s*:\s*([^\n]+)` (any case) at offset `i`. */
  function NameDescrAt(s: string, i: nat): (r: Option<(string, string)>)
    ensures r.Some? ==> NoBreak(r.value.1)
  {
    if !AtCI(s, i, "NAME") then None
    else
      var q := SkipSpace(s, i + 4);
      if !(q < |s| && s[q] == ':') then None
      else match UntilComma(s, q + 1)
        case None => None
        case Some((a, e)) =>
          match ColonRest(s, SkipSpace(s, e + 1), "DESCR", true)
          case None => None
          case Some(descr) => Some((s[a..e], descr))
  }

  /** `PID\s*:\s*([^,]+)\s*,\s*VID\s*:\s*([^,]+),\s*SN\s*:\s*([^\n]+)` (any case) at offset `i`. */
  function PidVidSnAt(s: string, i: nat): (r: Option<(string, string, string)>)
    ensures r.Some? ==> NoBreak(r.value.2)
  {
    if !AtCI(s, i, "PID") then None
    else
      var q := SkipSpace(s, i + 3);
      if !(q < |s| && s[q] == ':') then None
      else match UntilComma(s, q + 1)
        case None => None
        case Some((a, e)) =>
          var v := SkipSpace(s, e + 1);
          if !AtCI(s, v, "VID") then None
          else
            var q2 := SkipSpace(s, v + 3);
            if !(q2 < |s| && s[q2] == ':') then None
            else match UntilComma(s, q2 + 1)
              case None => None
              case Some((a2, e2)) =>
                match ColonRest(s, SkipSpace(s, e2 + 1), "SN", true)
                case None => None
                case Some(sn) => Some((s[a..e], s[a2..e2], sn))
  }

  /** Stripped text, possibly over several lines (a `[^,]+` capture). */
  predicate TrimmedText(v: Value)
  {
    v.Str? && Trimmed(v.s)
  }

  /** The type and description of the access point, when the `NAME` line matches. */
  function NameDescrWrites(section: string): (r: Fields)
    ensures r == [] || (|r| == 2 && r[0].0 == "inv_ap_type" && r[1].0 == "inv_ap_descr")
    ensures |r| == 2 ==> TrimmedText(r[0].1) && CleanText(r[1].1)
  {
    var m := Search<(string, string)>(section, NameDescrAt);
    if m.None? then []
    else [("inv_ap_type", Stripped(m.value.0)), ("inv_ap_descr", Stripped(m.value.1))]
  }

  /** The product id, version id and serial number, when the `PID` line matches. */
  function PidVidSnWrites(section: string): (r: Fields)
    ensures r == [] || (|r| == 3 && r[0].0 == "inv_ap_pid" && r[1].0 == "inv_ap_vid" && r[2].0 == "inv_ap_serial")
    ensures |r| == 3 ==> TrimmedText(r[0].1) && TrimmedText(r[1].1) && CleanText(r[2].1)
  {
    var m := Search<(string, string, string)>(section, PidVidSnAt);
    if m.None? then []
    else
      [("inv_ap_pid", Stripped(m.value.0)), ("inv_ap_vid", Stripped(m.value.1)),
       ("inv_ap_serial", Stripped(m.value.2))]
  }

  /** `DEVID` and the USB fields: `label\s*:\s*([^\n]+)`, any case. */
  const InventoryFields: seq<TextField> := [
    TextField("inv_ap_devid", "DEVID"),
    TextField("inv_usb_detected", "Detected"),
    TextField("inv_usb_status", "Status"),
    TextField("inv_usb_pid", "Product ID"),
    TextField("inv_usb_vid", "Vendor ID"),
    TextField("inv_usb_manuf", "Manufacturer"),
    TextField("inv_usb_descr", "Description"),
    TextField("inv_usb_serial", "Serial Number"),
    TextField("inv_usb_max_power", "Max Power")]

  /** Which keys each run of assignments may touch, and that every value is stripped text. */
  predicate InventoryShape(parts: seq<Fields>)
  {
    InventoryShapeFacts(parts) == true
  }

  /** One atom for the prover: the conjuncts above. */
  function InventoryShapeFacts(parts: seq<Fields>): bool
  {
    |parts| == 3 &&
    (parts[0] == [] || (|parts[0]| == 2 && parts[0][0].0 == "inv_ap_type" && parts[0][1].0 == "inv_ap_descr")) &&
    (|parts[0]| == 2 ==> TrimmedText(parts[0][0].1) && TrimmedText(parts[0][1].1)) &&
    (parts[1] == [] || (|parts[1]| == 3 && parts[1][0].0 == "inv_ap_pid" && parts[1][1].0 == "inv_ap_vid" &&
                        parts[1][2].0 == "inv_ap_serial")) &&
    (|parts[1]| == 3 ==> TrimmedText(parts[1][0].1) && TrimmedText(parts[1][1].1) && TrimmedText(parts[1][2].1)) &&
    (forall i :: 0 <= i < |parts[2]| ==> InventoryFieldKey(parts[2][i].0)) &&
    CleanTexts(parts[2])
  }

  /** Every assignment `_extract_show_inventory_metrics` makes from a section, in order. */
  function InventoryParts(section: string): (r: seq<Fields>)
    ensures InventoryShape(r)
  {
    var t := TextWrites(section, InventoryFields, true);
    InventoryFieldKeysAre();
    TableKeys(t, InventoryFields, InventoryFieldKey);
    [NameDescrWrites(section), PidVidSnWrites(section), t]
  }

  /** The keys of the `DEVID` and USB fields. */
  predicate InventoryFieldKey(k: string)
  {
    k == "inv_ap_devid" || k == "inv_usb_detected" || k == "inv_usb_status" || k == "inv_usb_pid" ||
    k == "inv_usb_vid" || k == "inv_usb_manuf" || k == "inv_usb_descr" || k == "inv_usb_serial" ||
    k == "inv_usb_max_power"
  }

  lemma InventoryFieldKeysAre()
    ensures forall f :: 0 <= f < |InventoryFields| ==> InventoryFieldKey(InventoryFields[f].key)
  {
  }

  /** A field key is an inventory key other than the found flag. */
  lemma FieldKeyIn(k: string)
    requires InventoryFieldKey(k)
    ensures k in InventoryKeys && k != "inv_parser_found"
  {
  }

  /** The keys a table's assignments write are keys of the table. */
  lemma TableKeys(w: Fields, fs: seq<TextField>, P: string -> bool)
    requires forall k :: (forall i :: 0 <= i < |fs| ==> fs[i].key != k) ==> k !in Keys(w)
    requires forall i :: 0 <= i < |fs| ==> P(fs[i].key)
    ensures forall i :: 0 <= i < |w| ==> P(w[i].0)
  {
    forall i | 0 <= i < |w| ensures P(w[i].0) {
      var k := w[i].0;
      assert k in Keys(w) by { assert Keys(w)[i] == k; }
      var f :| 0 <= f < |fs| && fs[f].key == k;
    }
  }

  /** `_extract_show_inventory_metrics` as a function of the capture. */
  function InventoryMetrics(content: string): (r: Fields)
    ensures Keys(r) == InventoryKeys
    ensures InventorySection(content).None? ==> r == DefaultInventory()
  {
    match InventorySection(content)
    case None => DefaultInventory()
    case Some(section) =>
      var d := Put(DefaultInventory(), "inv_parser_found", Bool(true));
      var parts := InventoryParts(section);
      InventoryPartsWithin(parts);
      FlattenWithin(parts, InventoryKeys);
      PutAllKeep(d, Flatten(parts));
      PutAll(d, Flatten(parts))
  }

  lemma InventoryPartsWithin(parts: seq<Fields>)
    requires InventoryShape(parts)
    ensures forall i :: 0 <= i < |parts| ==> Within(parts[i], InventoryKeys)
  {
    forall r, i | 0 <= r < 3 && 0 <= i < |parts[r]| ensures parts[r][i].0 in InventoryKeys {
      if r == 2 {
        FieldKeyIn(parts[r][i].0);
      } else {
        GroupKeyIn(parts[r][i].0);
      }
    }
  }

  lemma GroupKeyIn(k: string)
    requires k == "inv_ap_type" || k == "inv_ap_descr" || k == "inv_ap_pid" || k == "inv_ap_vid" || k == "inv_ap_serial"
    ensures k in InventoryKeys
  {
  }

  /** `inv_parser_found` is true exactly when a section was found: no field pattern assigns it. */
  lemma InventoryFound(content: string)
    ensures Get(InventoryMetrics(content), "inv_parser_found") == Some(Bool(InventorySection(content).Some?))
  {
    match InventorySection(content)
    case None =>
    case Some(section) =>
      var d := Put(DefaultInventory(), "inv_parser_found", Bool(true));
      var parts := InventoryParts(section);
      assert InventoryMetrics(content) == PutAll(d, Flatten(parts));
      FoundUntouched(parts);
      PutAllFacts(d, Flatten(parts));
  }

  lemma FoundUntouched(parts: seq<Fields>)
    requires InventoryShape(parts)
    ensures "inv_parser_found" !in Keys(Flatten(parts))
  {
    var k := "inv_parser_found";
    assert !InventoryFieldKey(k);
    assert k !in Keys(parts[0]) by {
      assert forall i :: 0 <= i < |parts[0]| ==> parts[0][i].0 != k;
    }
    assert k !in Keys(parts[1]) by {
      assert forall i :: 0 <= i < |parts[1]| ==> parts[1][i].0 != k;
    }
    assert k !in Keys(parts[2]) by {
      assert forall i :: 0 <= i < |parts[2]| ==> parts[2][i].0 != k;
    }
    LastGetNone(Flatten(parts), k, parts);
  }

  predicate SomeText(o: Option<Value>) { o.Some? && TrimmedText(o.value) }

  /**
   * The type and description come from one match and are set together, as
   * are the product id, version id and serial number: all `None`, or all
   * stripped text.
   */
  lemma InventoryTogether(content: string)
    ensures InventoryPaired(InventoryMetrics(content))
  {
    PairsNullDefault();
    match InventorySection(content)
    case None =>
    case Some(section) =>
      PairedIn(Put(DefaultInventory(), "inv_parser_found", Bool(true)), section);
  }

  /** Each group, the type and description and the product id, version id and serial number, all `None` or all text. */
  predicate InventoryPaired(r: Fields)
  {
    ((Get(r, "inv_ap_type") == Some(Null) && Get(r, "inv_ap_descr") == Some(Null)) ||
     (SomeText(Get(r, "inv_ap_type")) && SomeText(Get(r, "inv_ap_descr")))) &&
    ((Get(r, "inv_ap_pid") == Some(Null) && Get(r, "inv_ap_vid") == Some(Null) &&
      Get(r, "inv_ap_serial") == Some(Null)) ||
     (SomeText(Get(r, "inv_ap_pid")) && SomeText(Get(r, "inv_ap_vid")) && SomeText(Get(r, "inv_ap_serial"))))
  }

  /** The five grouped fields are all `None`. */
  predicate PairsNull(d: Fields)
  {
    Get(d, "inv_ap_type") == Some(Null) && Get(d, "inv_ap_descr") == Some(Null) &&
    Get(d, "inv_ap_pid") == Some(Null) && Get(d, "inv_ap_vid") == Some(Null) && Get(d, "inv_ap_serial") == Some(Null)
  }

  lemma PairsNullDefault()
    ensures PairsNull(DefaultInventory()) && PairsNull(Put(DefaultInventory(), "inv_parser_found", Bool(true)))
  {
    assert "inv_ap_type" in InventoryKeys && "inv_ap_descr" in InventoryKeys;
    assert "inv_ap_pid" in InventoryKeys && "inv_ap_vid" in InventoryKeys && "inv_ap_serial" in InventoryKeys;
  }

  /** The assignments of a section set each group together. */
  lemma PairedIn(d: Fields, section: string)
    ensures PairsNull(d) ==> InventoryPaired(PutAll(d, Flatten(InventoryParts(section))))
  {
    if PairsNull(d) {
      PairedParts(d, InventoryParts(section));
    }
  }

  lemma PairedParts(d: Fields, parts: seq<Fields>)
    requires InventoryShape(parts) && PairsNull(d)
    ensures InventoryPaired(PutAll(d, Flatten(parts)))
  {
    RunGet(d, parts, 0, 0, "inv_ap_type");
    RunGet(d, parts, 0, 1, "inv_ap_descr");
    RunGet(d, parts, 1, 0, "inv_ap_pid");
    RunGet(d, parts, 1, 1, "inv_ap_vid");
    RunGet(d, parts, 1, 2, "inv_ap_serial");
  }

  /** The `i`-th key of the `NAME` run (`j` = 0) or of the `PID` run (`j` = 1). */
  predicate RunKey(j: nat, i: nat, k: string)
  {
    (j == 0 && i == 0 && k == "inv_ap_type") || (j == 0 && i == 1 && k == "inv_ap_descr") ||
    (j == 1 && i == 0 && k == "inv_ap_pid") || (j == 1 && i == 1 && k == "inv_ap_vid") ||
    (j == 1 && i == 2 && k == "inv_ap_serial")
  }

  /** A grouped field holds its run's value when the run matched, and stays `None` otherwise. */
  lemma RunGet(d: Fields, parts: seq<Fields>, j: nat, i: nat, k: string)
    requires InventoryShape(parts) && RunKey(j, i, k) && Get(d, k) == Some(Null)
    ensures j < |parts| && Get(PutAll(d, Flatten(parts)), k) ==
              if |parts[j]| == 2 + j then Some(parts[j][i].1) else Some(Null)
  {
    RunOnly(parts, j, k);
    PutAllFacts(d, Flatten(parts));
    if |parts[j]| == 2 + j {
      RunLast(parts[j], j, i, k);
    } else {
      assert parts[j] == [];
    }
  }

  /** Only the `NAME` match assigns the type and description, only the `PID` match its three fields. */
  lemma RunOnly(parts: seq<Fields>, j: nat, k: string)
    requires InventoryShape(parts) && (exists i :: RunKey(j, i, k))
    ensures j < |parts| && LastGet(Flatten(parts), k) == LastGet(parts[j], k)
  {
    assert !InventoryFieldKey(k);
    assert forall r, i :: 0 <= r < 2 && r != j && 0 <= i < |parts[r]| ==> parts[r][i].0 != k;
    assert forall i :: 0 <= i < |parts[2]| ==> parts[2][i].0 != k;
    forall r | 0 <= r < |parts| && r != j ensures k !in Keys(parts[r]) {
      assert forall i :: 0 <= i < |parts[r]| ==> parts[r][i].0 != k;
    }
    LastGetOnly(parts, j, k);
  }

  lemma RunLast(u: Fields, j: nat, i: nat, k: string)
    requires RunKey(j, i, k) && |u| == 2 + j
    requires j == 0 ==> u[0].0 == "inv_ap_type" && u[1].0 == "inv_ap_descr"
    requires j == 1 ==> u[0].0 == "inv_ap_pid" && u[1].0 == "inv_ap_vid" && u[2].0 == "inv_ap_serial"
    ensures i < |u| && LastGet(u, k) == Some(u[i].1)
  {
    var a, b := u[..i + 1], u[i + 1..];
    assert u == a + b;
    assert forall x :: 0 <= x < |b| ==> b[x].0 != k;
    LastGetUntouched(a, b, k);
  }

  /** Every inventory field but the found flag holds `None` or stripped text. */
  lemma InventoryTexts(content: string)
    ensures TextsOrNull(InventoryMetrics(content))
  {
    TextsDefault();
    match InventorySection(content)
    case None =>
    case Some(section) =>
      TextsIn(Put(DefaultInventory(), "inv_parser_found", Bool(true)), section);
  }

  /** Every field but the found flag is `None` or stripped text. */
  predicate TextsOrNull(r: Fields)
  {
    forall k :: k in Keys(r) && k != "inv_parser_found" ==> Get(r, k) == Some(Null) || SomeText(Get(r, k))
  }

  lemma TextsDefault()
    ensures TextsOrNull(DefaultInventory()) && TextsOrNull(Put(DefaultInventory(), "inv_parser_found", Bool(true)))
  {
  }

  /** The assignments of a section write only stripped text. */
  lemma TextsIn(d: Fields, section: string)
    ensures TextsOrNull(d) ==> TextsOrNull(PutAll(d, Flatten(InventoryParts(section))))
  {
    if TextsOrNull(d) {
      TextsParts(d, InventoryParts(section));
    }
  }

  lemma TextsParts(d: Fields, parts: seq<Fields>)
    requires InventoryShape(parts) && TextsOrNull(d)
    ensures TextsOrNull(PutAll(d, Flatten(parts)))
  {
    var w := Flatten(parts);
    PartsTrimmed(parts);
    FlattenAll(parts, TrimmedText);
    PutAllFacts(d, w);
    forall k | k in Keys(PutAll(d, w)) && k != "inv_parser_found"
      ensures Get(PutAll(d, w), k) == Some(Null) || SomeText(Get(PutAll(d, w), k))
    {
      LastGetAll(w, k, TrimmedText);
    }
  }

  lemma PartsTrimmed(parts: seq<Fields>)
    requires InventoryShape(parts)
    ensures forall j, i :: 0 <= j < |parts| && 0 <= i < |parts[j]| ==> TrimmedText(parts[j][i].1)
  {
  }

  /** Each `DEVID` or USB field holds its stripped first match, or `None`. */
  lemma InventoryFieldValue(content: string, j: nat)
    requires j < |InventoryFields| && InventorySection(content).Some?
    ensures Get(InventoryMetrics(content), InventoryFields[j].key) ==
              Some(match TextValue(InventorySection(content).value, InventoryFields[j], true)
                   case None => Null case Some(v) => v)
  {
    FieldIn(InventorySection(content).value, j);
  }

  lemma FieldIn(section: string, j: nat)
    requires j < |InventoryFields|
    ensures Get(PutAll(Put(DefaultInventory(), "inv_parser_found", Bool(true)), Flatten(InventoryParts(section))),
                InventoryFields[j].key) ==
              Some(match TextValue(section, InventoryFields[j], true) case None => Null case Some(v) => v)
  {
    var k := InventoryFields[j].key;
    var d1 := Put(DefaultInventory(), "inv_parser_found", Bool(true));
    var parts := InventoryParts(section);
    InventoryFieldKeysAre();
    FieldDefault(k);
    PutAllFacts(d1, Flatten(parts));
    InventoryTableOnly(parts, k);
    InventoryFieldsDistinct();
    TextWritesLast(section, InventoryFields, true, j);
  }

  lemma FieldDefault(k: string)
    requires InventoryFieldKey(k)
    ensures Get(Put(DefaultInventory(), "inv_parser_found", Bool(true)), k) == Some(Null)
  {
    FieldKeyIn(k);
  }

  lemma InventoryTableOnly(parts: seq<Fields>, k: string)
    requires InventoryShape(parts) && InventoryFieldKey(k)
    ensures LastGet(Flatten(parts), k) == LastGet(parts[2], k)
  {
    assert forall r, i :: 0 <= r < 2 && 0 <= i < |parts[r]| ==> parts[r][i].0 != k;
    forall r | 0 <= r < 2 ensures k !in Keys(parts[r]) {
      assert forall i :: 0 <= i < |parts[r]| ==> parts[r][i].0 != k;
    }
    LastGetOnly(parts, 2, k);
  }

  lemma InventoryFieldsDistinct()
    ensures forall a, b :: 0 <= a < b < |InventoryFields| ==> InventoryFields[a].key != InventoryFields[b].key
  {
  }

  /** The extraction as the source performs it: set the flag, then each field whose pattern matches. */
  method ExtractInventory(content: string) returns (m: Fields)
    ensures m == InventoryMetrics(content)
  {
    m := DefaultInventory();
    var section: string;
    var command := Search<(string, nat)>(content, InvCommandAt);
    if command.None? {
      var star := Search(content, InvStarAt);
      if star.None? {
        return;
      }
      section := star.value;
    } else {
      var prompt := Strip(command.value.0);
      section := AfterCommand(content, prompt, command.value.1);
    }
    m := Put(m, "inv_parser_found", Bool(true));
    m := ApplyInventoryFields(section, m);
  }

  /** The field assignments of `_extract_show_inventory_metrics` applied to `init`. */
  method ApplyInventoryFields(section: string, init: Fields) returns (m: Fields)
    ensures m == PutAll(init, Flatten(InventoryParts(section)))
  {
    m := ApplyNameDescr(section, init);
    m := ApplyPidVidSn(section, m);
    m := ApplyTextFields(section, InventoryFields, true, m);
    var a, b, c := NameDescrWrites(section), PidVidSnWrites(section), TextWrites(section, InventoryFields, true);
    Flatten3(a, b, c);
    PutAllConcat(init, a, b);
    PutAllConcat(init, a + b, c);
  }

  /** The `NAME:`/`DESCR:` pair: both stored together when the line matches. */
  method ApplyNameDescr(section: string, init: Fields) returns (m: Fields)
    ensures m == PutAll(init, NameDescrWrites(section))
  {
    m := init;
    var nameDescr := Search<(string, string)>(section, NameDescrAt);
    if nameDescr.Some? {
      m := Put(m, "inv_ap_type", Stripped(nameDescr.value.0));
      m := Put(m, "inv_ap_descr", Stripped(nameDescr.value.1));
      PutAllPair(init, NameDescrWrites(section));
    }
  }

  /** The `PID:`/`VID:`/`SN:` triple: all three stored together when the line matches. */
  method ApplyPidVidSn(section: string, init: Fields) returns (m: Fields)
    ensures m == PutAll(init, PidVidSnWrites(section))
  {
    m := init;
    var pidVidSn := Search<(string, string, string)>(section, PidVidSnAt);
    if pidVidSn.Some? {
      var (pid, vid, sn) := pidVidSn.value;
      m := Put(m, "inv_ap_pid", Stripped(pid));
      m := Put(m, "inv_ap_vid", Stripped(vid));
      m := Put(m, "inv_ap_serial", Stripped(sn));
      PidVidSnFound(section, pidVidSn.value);
      PutAllThree(init, "inv_ap_pid", Stripped(pid), "inv_ap_vid", Stripped(vid), "inv_ap_serial", Stripped(sn));
    }
  }

  lemma PidVidSnFound(section: string, t: (string, string, string))
    requires Search<(string, string, string)>(section, PidVidSnAt) == Some(t)
    ensures PidVidSnWrites(section) ==
      [("inv_ap_pid", Stripped(t.0)), ("inv_ap_vid", Stripped(t.1)), ("inv_ap_serial", Stripped(t.2))]
  {
  }
}
