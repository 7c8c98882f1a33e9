/**
 * `ap_gnss_stats/lib/parser.py`: the older `GnssInfoParser.parse_text`, which
 * searches the whole text once per field with a case-insensitive pattern of
 * the form `Label\s*:\s*(value)$` and assigns the field only when the search
 * succeeds. The patterns are compiled without `re.MULTILINE`, so `$` matches
 * only at the end of the text or just before a final line feed; the
 * `multiline` parameter below says which reading of `$` is meant, and the
 * source is the `false` reading.
 */
module LegacyParser {
  import opened Common
  import opened Text
  import opened Json
  import opened Scan

  // ---------------------------------------------------------------- patterns

  /** What a pattern captures after its label and colon. */
  datatype Shape =
    | Rest      // (.+)
    | Decimal   // ([-+]?\d+\.\d+)
    | Hex       // ([0-9a-fA-F:]+)
    | Dotted    // (\d+\.\d+\.\d+\.\d+)
    | Count     // (\d+)
    | Metres    // ([-+]?\d+\.\d+)\s*m

  /** A field: its key, the words of its label (separated by `\s+`), and the shape of its value. */
  datatype Pattern = Pattern(key: string, words: seq<string>, shape: Shape)

  const ApName := Pattern("ap_name", ["ap", "name"], Rest)
  const Model := Pattern("model", ["ap", "model"], Rest)
  const Mac := Pattern("mac_address", ["mac", "address"], Hex)
  const Ip := Pattern("ip_address", ["ip", "address"], Dotted)
  const Location := Pattern("location", ["ap", "location"], Rest)
  const GnssStatus := Pattern("gnss_status", ["gnss", "status"], Rest)
  const Latitude := Pattern("latitude", ["latitude"], Decimal)
  const Longitude := Pattern("longitude", ["longitude"], Decimal)
  const Altitude := Pattern("altitude_meters", ["altitude"], Metres)
  const Satellites := Pattern("satellites_count", ["number", "of", "satellites"], Count)
  const TimeStamp := Pattern("gnss_timestamp", ["time", "stamp"], Rest)

  /** The fields in the order `parse_text` tries them. */
  const Patterns: seq<Pattern> :=
    [ApName, Model, Mac, Ip, Location, GnssStatus, Latitude, Longitude, Altitude, Satellites, TimeStamp]

  // ---------------------------------------------------------------- matching

  /**
   * `$` at offset `p`: the end of the text, or a line feed that ends the text;
   * with `re.MULTILINE`, any line feed.
   */
  predicate AnchorAt(s: string, p: nat, multiline: bool)
  {
    p == |s| || (p < |s| && s[p] == '\n' && (multiline || p == |s| - 1))
  }

  /** The words of a label, ignoring case, with at least one whitespace between them: where the last word ends. */
  function WordsEnd(s: string, i: nat, words: seq<string>): (r: Option<nat>)
    ensures r.Some? ==> i <= r.value <= |s|
    decreases |words|
  {
    if |words| == 0 || !AtCI(s, i, words[0]) then None
    else if |words| == 1 then Some(i + |words[0]|)
    else
      var a := i + |words[0]|;
      var b := SkipSpace(s, a);
      if b > a then WordsEnd(s, b, words[1..]) else None
  }

  /** `label\s*:` at offset `i`: the offset after the colon. */
  function ColonAfter(s: string, i: nat, words: seq<string>): (r: Option<nat>)
    ensures r.Some? ==> 0 < r.value <= |s| && s[r.value - 1] == ':'
  {
    match WordsEnd(s, i, words)
    case None => None
    case Some(w) =>
      var c := SkipSpace(s, w);
      if c < |s| && s[c] == ':' then Some(c + 1) else None
  }

  /** `[-+]?\d+\.\d+`. */
  predicate SignedDecimal(g: string)
  {
    var body := if |g| > 0 && (g[0] == '-' || g[0] == '+') then g[1..] else g;
    match IndexOf(body, '.')
    case None => false
    case Some(d) => IsDigits(body[..d]) && IsDigits(body[d + 1..])
  }

  /** A whole capture of a shape that ends where its run ends. */
  predicate Fits(g: string, shape: Shape)
  {
    match shape
    case Decimal => SignedDecimal(g)
    case Hex => |g| > 0 && forall j :: 0 <= j < |g| ==> InClass(g[j], HexColon)
    case Dotted => var parts := Split(g, '.'); |parts| == 4 && forall j :: 0 <= j < 4 ==> IsDigits(parts[j])
    case Count => IsDigits(g)
    case _ => false
  }

  /** `\s*m$` from offset `n` (the `m` in either case). */
  predicate MetresEnd(s: string, n: nat, multiline: bool)
  {
    n <= |s| &&
    var t := SkipSpace(s, n);
    t < |s| && (s[t] == 'm' || s[t] == 'M') && AnchorAt(s, t + 1, multiline)
  }

  /**
   * What a successful attempt guarantees about its group `s[a..e]`: a number
   * followed by `\s*m$` for the altitude; otherwise a non-empty run on one
   * line that ends at an anchor and, for the shapes other than `(.+)`, fits
   * the shape.
   */
  predicate Spanned(s: string, a: nat, e: nat, shape: Shape, multiline: bool)
  {
    a <= e <= |s| &&
    if shape == Metres then SignedDecimal(s[a..e]) && MetresEnd(s, e, multiline)
    else
      a < e && AnchorAt(s, e, multiline) && (forall j :: a <= j < e ==> s[j] != '\n') &&
      (shape != Rest ==> Fits(s[a..e], shape))
  }

  /**
   * `\s*(.+)$` from offset `a`: the greedy `\s*` crosses line feeds, gives
   * back one character when only whitespace is left, and the capture must
   * run to an anchor.
   */
  function RestSpan(s: string, a: nat, multiline: bool): (r: Option<(nat, nat)>)
    requires a <= |s|
    ensures r.Some? ==> a <= r.value.0 && Spanned(s, r.value.0, r.value.1, Rest, multiline)
  {
    var q := SkipSpace(s, a);
    var k := if q < |s| then Some(q) else LastNonNewline(s, a, q);
    match k
    case None => None
    case Some(k) =>
      var e := LineEnd(s, k);
      if AnchorAt(s, e, multiline) then Some((k, e)) else None
  }

  /** `\s*([-+]?\d+\.\d+)\s*m$` from offset `a`. */
  function MetresSpan(s: string, a: nat, multiline: bool): (r: Option<(nat, nat)>)
    requires a <= |s|
    ensures r.Some? ==> a <= r.value.0 && Spanned(s, r.value.0, r.value.1, Metres, multiline)
  {
    var q := SkipSpace(s, a);
    var sign := if q < |s| && (s[q] == '-' || s[q] == '+') then 1 else 0;
    var n := RunEnd(s, q + sign, DigitDot);
    if SignedDecimal(s[q..n]) && MetresEnd(s, n, multiline) then Some((q, n)) else None
  }

  /** The pattern's match attempt at offset `i`: where its capture group lies. */
  function SpanAt(s: string, i: nat, p: Pattern, multiline: bool): (r: Option<(nat, nat)>)
    ensures r.Some? ==> Spanned(s, r.value.0, r.value.1, p.shape, multiline)
  {
    match ColonAfter(s, i, p.words)
    case None => None
    case Some(a) =>
      match p.shape
      case Rest => RestSpan(s, a, multiline)
      case Metres => MetresSpan(s, a, multiline)
      case _ =>
        var q := SkipSpace(s, a);
        var e := LineEnd(s, q);
        if AnchorAt(s, e, multiline) && Fits(s[q..e], p.shape) && q < e then Some((q, e)) else None
  }

  /** One match attempt of the pattern, as `re.search` makes it at each offset. */
  function Attempt(p: Pattern, multiline: bool): (string, nat) -> Option<(nat, nat)>
  {
    (t: string, i: nat) => SpanAt(t, i, p, multiline)
  }

  /** `pattern.search(text)`: the leftmost match's capture group. */
  function Capture(s: string, p: Pattern, multiline: bool): (r: Option<string>)
  {
    match Search(s, Attempt(p, multiline))
    case None => None
    case Some(span) => if span.0 <= span.1 <= |s| then Some(s[span.0..span.1]) else None
  }

  // ---------------------------------------------------------------- values

  /**
   * The value stored for a capture: text stripped; `float()` or `int()` of a
   * number, falling back to the raw capture on `ValueError`.
   */
  function Convert(g: string, shape: Shape): Value
  {
    match shape
    case Decimal => (match ParseFloat(g) case Some(x) => Num(x) case None => Str(g))
    case Metres => (match ParseFloat(g) case Some(x) => Num(x) case None => Str(g))
    case Count => (match ParseInt(g) case Some(n) => Int(n) case None => Str(g))
    case _ => Str(Strip(g))
  }

  /** The value a field gets, if its pattern matches. */
  function FieldValue(s: string, p: Pattern, multiline: bool): Option<Value>
  {
    match Capture(s, p, multiline)
    case None => None
    case Some(g) => Some(Convert(g, p.shape))
  }

  /** What each pattern yields on text `s`. */
  function Found(s: string, multiline: bool): Pattern -> Option<Value>
  {
    p => FieldValue(s, p, multiline)
  }

  /**
   * The dictionary after trying `ps` in order, starting from `{}`, when
   * pattern `p` yields `found(p)`.
   */
  function Assigned(ps: seq<Pattern>, found: Pattern -> Option<Value>): Fields
  {
    if |ps| == 0 then []
    else
      var d := Assigned(ps[..|ps| - 1], found);
      var p := ps[|ps| - 1];
      match found(p)
      case None => d
      case Some(v) => Put(d, p.key, v)
  }

  /** `parse_text`, with `$` read as written (`multiline == false`) or per line. */
  function Parsed(s: string, multiline: bool): Fields
  {
    Assigned(Patterns, Found(s, multiline))
  }

  // ---------------------------------------------------------------- the method

  /**
   * `if match: result[key] = value` for the `k`-th pattern: the dictionary
   * built by the first `k` patterns becomes the one built by the first `k + 1`.
   */
  method Assign(result: Fields, text: string, patterns: seq<Pattern>, k: nat, multiline: bool) returns (r: Fields)
    requires k < |patterns| && result == Assigned(patterns[..k], Found(text, multiline))
    ensures r == Assigned(patterns[..k + 1], Found(text, multiline))
  {
    var p := patterns[k];
    var m := Capture(text, p, multiline);
    if m.Some? {
      r := Put(result, p.key, Convert(m.value, p.shape));
    } else {
      r := result;
    }
    assert patterns[..k + 1][..k] == patterns[..k];
  }

  /**
   * The body of `parse_text`: its eleven search-and-assign blocks, one per
   * compiled pattern of `__init__` (`Patterns`, in the same order), taken in
   * turn over the pattern table.
   */
  method ParseTextWith(patterns: seq<Pattern>, text: string, multiline: bool) returns (result: Fields)
    ensures result == Assigned(patterns, Found(text, multiline))
  {
    result := [];
    for k := 0 to |patterns|
      invariant result == Assigned(patterns[..k], Found(text, multiline))
    {
      result := Assign(result, text, patterns, k, multiline);
    }
    assert patterns[..|patterns|] == patterns;
  }

  /** `parse_text` as written: `$` only at the end of the text. */
  method ParseText(text: string) returns (result: Fields)
    ensures result == Parsed(text, false)
  {
    result := ParseTextWith(Patterns, text, false);
  }

  /** `parse_text` with the patterns compiled with `re.MULTILINE`, as its tests expect. */
  method ParseTextPerLine(text: string) returns (result: Fields)
    ensures result == Parsed(text, true)
  {
    result := ParseTextWith(Patterns, text, true);
  }

  // ---------------------------------------------------------------- what a parse holds

  /** No two patterns share a key. */
  predicate DistinctKeys(ps: seq<Pattern>)
  {
    forall i, j :: 0 <= i < j < |ps| ==> ps[i].key != ps[j].key
  }

  /** Reference definition: the key and value of every pattern that yields one, in pattern order. */
  function Matches(ps: seq<Pattern>, found: Pattern -> Option<Value>): Fields
  {
    if |ps| == 0 then []
    else
      var d := Matches(ps[..|ps| - 1], found);
      var p := ps[|ps| - 1];
      if found(p).Some? then d + [(p.key, found(p).value)] else d
  }

  /** A key no pattern has is never assigned. */
  lemma {:induction false} AssignedMissing(ps: seq<Pattern>, found: Pattern -> Option<Value>, key: string)
    requires forall j :: 0 <= j < |ps| ==> ps[j].key != key
    ensures Get(Assigned(ps, found), key) == None
    decreases |ps|
  {
    if |ps| > 0 {
      var init := ps[..|ps| - 1];
      assert forall j :: 0 <= j < |init| ==> init[j] == ps[j];
      AssignedMissing(init, found, key);
    }
  }

  /** With distinct keys, each pattern's key holds exactly what that pattern yielded, or is absent. */
  lemma {:induction false} AssignedGet(ps: seq<Pattern>, found: Pattern -> Option<Value>, k: nat)
    requires DistinctKeys(ps) && k < |ps|
    ensures Get(Assigned(ps, found), ps[k].key) == found(ps[k])
    decreases |ps|
  {
    var n := |ps| - 1;
    var init := ps[..n];
    assert forall j :: 0 <= j < |init| ==> init[j] == ps[j];
    if k == n {
      if found(ps[n]).None? {
        AssignedMissing(init, found, ps[n].key);
      }
    } else {
      AssignedGet(init, found, k);
    }
  }

  /** With distinct keys, every assignment appends: the dictionary is `Matches`. */
  lemma {:induction false} AssignedIsMatches(ps: seq<Pattern>, found: Pattern -> Option<Value>)
    requires DistinctKeys(ps)
    ensures Assigned(ps, found) == Matches(ps, found)
    decreases |ps|
  {
    if |ps| > 0 {
      var n := |ps| - 1;
      var init := ps[..n];
      assert forall j :: 0 <= j < |init| ==> init[j] == ps[j];
      AssignedIsMatches(init, found);
      var d := Assigned(init, found);
      if found(ps[n]).Some? {
        AssignedMissing(init, found, ps[n].key);
        assert ps[n].key !in Keys(d);
        PutNew(d, ps[n].key, found(ps[n]).value);
      }
    }
  }

  lemma PatternsDistinct()
    ensures DistinctKeys(Patterns)
  {
  }

  /**
   * `parse_text` returns, for each of its eleven fields, exactly what that
   * field's pattern yields, and nothing else, in pattern order.
   */
  lemma ParsedFields(s: string, multiline: bool)
    ensures forall k :: 0 <= k < |Patterns| ==> Get(Parsed(s, multiline), Patterns[k].key) == FieldValue(s, Patterns[k], multiline)
    ensures Parsed(s, multiline) == Matches(Patterns, Found(s, multiline))
  {
    PatternsDistinct();
    forall k | 0 <= k < |Patterns|
      ensures Get(Parsed(s, multiline), Patterns[k].key) == FieldValue(s, Patterns[k], multiline)
    {
      AssignedGet(Patterns, Found(s, multiline), k);
    }
    AssignedIsMatches(Patterns, Found(s, multiline));
  }

  // ---------------------------------------------------------------- one capture

  /** A capture is the group of a match attempt at some offset. */
  lemma CaptureSpan(s: string, p: Pattern, multiline: bool) returns (a: nat, e: nat)
    requires Capture(s, p, multiline).Some?
    ensures Spanned(s, a, e, p.shape, multiline) && Capture(s, p, multiline) == Some(s[a..e])
  {
    var r := SearchFrom(s, 0, Attempt(p, multiline));
    a, e := r.value.1.0, r.value.1.1;
  }

  /** Without `re.MULTILINE`, `\s*m$` leaves the `m` last, or last before a final line feed. */
  lemma MetresAtEnd(s: string, e: nat)
    requires MetresEnd(s, e, false)
    ensures var t := SkipSpace(s, e);
      t < |s| && (s[t] == 'm' || s[t] == 'M') && (t == |s| - 1 || (t == |s| - 2 && s[|s| - 1] == '\n'))
  {
  }

  /**
   * Without `re.MULTILINE` every capture `s[a..e]` lies at the very end of the
   * text: a text capture runs to the end or to a final line feed, and after a
   * number in metres only whitespace and the `m` remain. Only fields on the
   * last line (or, for the altitude, its last two lines) can be found.
   */
  lemma CaptureAtEnd(s: string, p: Pattern, g: string) returns (a: nat, e: nat)
    requires Capture(s, p, false) == Some(g)
    ensures a <= e <= |s| && g == s[a..e]
    ensures p.shape != Metres ==> a < e && forall j :: a <= j < e ==> s[j] != '\n'
    ensures p.shape != Metres ==> e == |s| || (e == |s| - 1 && s[|s| - 1] == '\n')
    ensures p.shape == Metres ==> var t := SkipSpace(s, e);
      t < |s| && (s[t] == 'm' || s[t] == 'M') && (t == |s| - 1 || (t == |s| - 2 && s[|s| - 1] == '\n'))
  {
    a, e := CaptureSpan(s, p, false);
    if p.shape == Metres {
      MetresAtEnd(s, e);
    }
  }

  /** `float()` accepts every capture of `[-+]?\d+\.\d+`. */
  lemma DecimalParses(g: string)
    requires SignedDecimal(g)
    ensures ParseFloat(g).Some?
  {
    var body := if |g| > 0 && (g[0] == '-' || g[0] == '+') then g[1..] else g;
    var d := IndexOf(body, '.').value;
    DecimalFloat(g, body, d);
  }

  /** What a capture of each shape looks like. */
  predicate CaptureForm(g: string, shape: Shape)
  {
    match shape
    case Decimal => SignedDecimal(g)
    case Metres => SignedDecimal(g)
    case Count => IsDigits(g)
    case _ => '\n' !in g
  }

  /** The kind of value a field of each shape holds. */
  predicate ValueKind(v: Value, shape: Shape)
  {
    match shape
    case Decimal => v.Num?
    case Metres => v.Num?
    case Count => v.Int? && v.i >= 0
    case _ => v.Str? && Trimmed(v.s) && '\n' !in v.s
  }

  lemma SpannedForm(s: string, a: nat, e: nat, shape: Shape, multiline: bool)
    requires Spanned(s, a, e, shape, multiline)
    ensures CaptureForm(s[a..e], shape)
  {
    if shape != Metres {
      var g := s[a..e];
      assert forall j :: 0 <= j < |g| ==> g[j] == s[a + j];
    }
  }

  /** The value `Convert` gives a capture that has the shape's form. */
  lemma ConvertKinds(g: string, shape: Shape)
    requires CaptureForm(g, shape)
    ensures ValueKind(Convert(g, shape), shape)
  {
    if shape == Decimal || shape == Metres {
      DecimalParses(g);
    } else if shape == Count {
      StripDigits(g);
    }
  }

  /**
   * The kind of value each field gets: the `ValueError` fallbacks to the raw
   * capture never happen, because the patterns admit only what `float()` and
   * `int()` accept; text fields are stripped and on one line.
   */
  lemma FieldKinds(s: string, p: Pattern, multiline: bool, v: Value)
    requires FieldValue(s, p, multiline) == Some(v)
    ensures ValueKind(v, p.shape)
  {
    var a, e := CaptureSpan(s, p, multiline);
    SpannedForm(s, a, e, p.shape, multiline);
    ConvertKinds(s[a..e], p.shape);
  }

  // ---------------------------------------------------------------- `$` without `re.MULTILINE`

  /** The text ends in an empty line, as the device's output does. */
  predicate EndsWithBlankLine(s: string)
  {
    |s| >= 2 && s[|s| - 1] == '\n' && s[|s| - 2] == '\n'
  }

  /** No attempt succeeds on a text that ends in an empty line when `$` is read as written. */
  lemma SpannedNotBlankEnd(s: string, a: nat, e: nat, shape: Shape)
    requires Spanned(s, a, e, shape, false)
    ensures !EndsWithBlankLine(s)
  {
  }

  lemma NoCaptureAfterBlankLine(s: string, p: Pattern)
    ensures EndsWithBlankLine(s) ==> Capture(s, p, false).None?
  {
    if Capture(s, p, false).Some? {
      var a, e := CaptureSpan(s, p, false);
      SpannedNotBlankEnd(s, a, e, p.shape);
    }
  }

  /** A fold in which no pattern yields a value leaves `{}`. */
  lemma {:induction false} AssignedNothing(ps: seq<Pattern>, found: Pattern -> Option<Value>)
    requires forall j :: 0 <= j < |ps| ==> found(ps[j]).None?
    ensures Assigned(ps, found) == []
    decreases |ps|
  {
    if |ps| > 0 {
      var init := ps[..|ps| - 1];
      assert forall j :: 0 <= j < |init| ==> init[j] == ps[j];
      AssignedNothing(init, found);
    }
  }

  /**
   * As written, `parse_text` finds nothing at all in a text that ends in an
   * empty line (`"AP Name : x\n\n"`, say), whatever the lines before it hold.
   */
  lemma BlankLineEndsParse(s: string)
    requires EndsWithBlankLine(s)
    ensures Parsed(s, false) == []
  {
    forall j | 0 <= j < |Patterns|
      ensures Found(s, false)(Patterns[j]).None?
    {
      NoCaptureAfterBlankLine(s, Patterns[j]);
    }
    AssignedNothing(Patterns, Found(s, false));
  }

  /** The `ap_name` pattern's attempt at the start of a line `AP Name : v`. */
  lemma ApNameLineSpan(v: string, rest: string)
    requires |v| > 0 && '\n' !in v && !IsSpace(v[0])
    ensures var s := "AP Name : " + v + "\n" + rest;
      10 + |v| < |s| && SpanAt(s, 0, ApName, true).Some? &&
      SpanAt(s, 0, ApName, true).value.0 == 10 && SpanAt(s, 0, ApName, true).value.1 == 10 + |v| &&
      s[10..10 + |v|] == v
  {
    var s := "AP Name : " + v + "\n" + rest;
    assert s[..10] == "AP Name : ";
    assert forall j :: 0 <= j < |v| ==> s[10 + j] == v[j];
    assert s[10 + |v|] == '\n';
    assert Lower(s[0..2]) == Lower("ap");
    assert SkipSpace(s, 2) == 3;
    assert Lower(s[3..7]) == Lower("name");
    assert WordsEnd(s, 3, ["name"]) == Some(7);
    assert ["ap", "name"][1..] == ["name"];
    assert SkipSpace(s, 7) == 8;
    assert SkipSpace(s, 9) == 10;
    assert LineEnd(s, 10) == 10 + |v|;
  }

  /**
   * With `$` read per line, as the parser's tests expect, a first line
   * `AP Name : v` gives `ap_name` whatever follows it, the blank line included.
   */
  lemma PerLineReadsFirstLine(v: string, rest: string)
    requires |v| > 0 && '\n' !in v && !IsSpace(v[0])
    ensures Get(Parsed("AP Name : " + v + "\n" + rest, true), "ap_name") == Some(Str(Strip(v)))
  {
    var s := "AP Name : " + v + "\n" + rest;
    ApNameLineSpan(v, rest);
    assert Capture(s, ApName, true) == Some(v);
    ParsedFields(s, true);
    assert Patterns[0] == ApName;
  }
}
