/**
 * The CAPWAP client configuration parser (lib/parsers/capwap_config_parser.py).
 * The output of `show capwap client configuration` becomes one dict: the
 * top-level settings, under keys lower-cased with spaces turned into
 * underscores, plus a list of slots, each with its number and its own settings,
 * nested sub-sections ("Load Profile:", "HE Info:") included.
 */
module CapwapConfig {
  import opened Common
  import opened Json
  import opened Text
  import opened Scan
  import CsvColumns

  /** The command whose output is parsed (matched ignoring case). */
  const Command := "show capwap client configuration"

  /** The one key of the parser's result. */
  const ResultKey := "show_capwap_client_config"

  // ---------------------------------------------------------------------------
  // Values: `_normalize_value`.
  // ---------------------------------------------------------------------------

  predicate TrueWord(w: string) { w == "true" || w == "yes" || w == "enabled" }

  predicate FalseWord(w: string) { w == "false" || w == "no" || w == "disabled" }

  /** `v.isdigit() or (v.startswith('-') and v[1:].isdigit())`. */
  predicate SignedDigits(v: string)
  {
    IsDigits(v) || (|v| > 0 && v[0] == '-' && IsDigits(v[1..]))
  }

  /** What a setting can hold: a bool, an int, a float or a text. */
  predicate Scalar(v: Value) { v.Bool? || v.Int? || v.Num? || v.Str? }

  /**
   * `_normalize_value`: the stripped text becomes a bool when it is one of the
   * six words, an int when it is digits with an optional minus, a float when
   * `float()` accepts it, and stays text otherwise.
   */
  function NormalizeValue(value: string): (r: Value)
    ensures Scalar(r)
    ensures r == Bool(true) <==> TrueWord(Lower(Strip(value)))
    ensures r == Bool(false) <==> FalseWord(Lower(Strip(value)))
    ensures r.Int? <==> SignedDigits(Strip(value))
    ensures r.Int? ==> ParseInt(Strip(value)) == Some(r.i)
    ensures r.Num? ==> ParseFloat(Strip(value)) == Some(r.r)
    ensures r.Str? ==> r.s == Strip(value) && ParseFloat(Strip(value)).None?
  {
    var v := Strip(value);
    var w := Lower(v);
    WordsNotDigits(v);
    if TrueWord(w) then Bool(true)
    else if FalseWord(w) then Bool(false)
    else if SignedDigits(v) then
      SignedDigitsParse(v);
      Int(ParseInt(v).value)
    else match ParseFloat(v)
      case Some(x) => Num(x)
      case None => Str(v)
  }

  /** An int result is what `int()` makes of the text. */
  lemma NormalizeInt(value: string)
    requires NormalizeValue(value).Int?
    ensures ParseInt(value) == Some(NormalizeValue(value).i)
  {
    ParseStrip(value);
  }

  /** A float result is what `float()` makes of the text; a text result is one `float()` refuses. */
  lemma NormalizeFloat(value: string)
    ensures NormalizeValue(value).Num? ==> ParseFloat(value) == Some(NormalizeValue(value).r)
    ensures NormalizeValue(value).Str? ==> NormalizeValue(value).s == Strip(value) && ParseFloat(value).None?
  {
    ParseStrip(value);
  }

  /** `int()` and `float()` strip their argument themselves. */
  lemma ParseStrip(value: string)
    ensures ParseInt(Strip(value)) == ParseInt(value)
    ensures ParseFloat(Strip(value)) == ParseFloat(value)
  {
    StripTrimmed(Strip(value));
    SameStripInt(Strip(value), value);
    SameStripFloat(Strip(value), value);
  }

  /** `int()` reads only the stripped text. */
  lemma SameStripInt(a: string, b: string)
    requires Strip(a) == Strip(b)
    ensures ParseInt(a) == ParseInt(b)
  {
  }

  /** `float()` reads only the stripped text. */
  lemma SameStripFloat(a: string, b: string)
    requires Strip(a) == Strip(b)
    ensures ParseFloat(a) == ParseFloat(b)
  {
  }

  /** `int(v)` accepts a signed run of digits. */
  lemma SignedDigitsParse(v: string)
    requires SignedDigits(v)
    ensures ParseInt(v).Some?
  {
    if !IsDigits(v) {
      assert !IsSpace(v[0]) && !IsSpace(v[|v| - 1]);
    }
    StripTrimmed(v);
  }

  /** None of the six words is a signed run of digits. */
  lemma WordsNotDigits(v: string)
    ensures SignedDigits(v) ==> !TrueWord(Lower(v)) && !FalseWord(Lower(v))
  {
    if SignedDigits(v) {
      assert Lower(v)[0] == LowerChar(v[0]);
      assert IsDigit(Lower(v)[0]) || Lower(v)[0] == '-';
    }
  }

  /** `str(n)` of an int normalises back to `n`. */
  lemma NormalizeIntText(n: int)
    ensures NormalizeValue(IntToString(n)) == Int(n)
  {
    ParseIntIntToString(n);
    IntTextShape(n);
    NormalizeSignedText(IntToString(n), n);
  }

  /** `str(n)` is a signed run of digits with no surrounding whitespace. */
  lemma IntTextShape(n: int)
    ensures SignedDigits(IntToString(n)) && Trimmed(IntToString(n))
  {
    var t := IntToString(n);
    var m: nat := if n < 0 then -n else n;
    if n < 0 {
      assert t == "-" + NatToString(m) && t[1..] == NatToString(m);
      assert !IsSpace(t[|t| - 1]);
    }
  }

  /** Trimmed signed digits normalise to the integer `int()` reads from them. */
  lemma NormalizeSignedText(t: string, n: int)
    requires SignedDigits(t) && Trimmed(t) && ParseInt(t) == Some(n)
    ensures NormalizeValue(t) == Int(n)
  {
    StripTrimmed(t);
  }

  /** `str(b)` of a bool normalises back to `b`. */
  lemma NormalizeBoolText(b: bool)
    ensures NormalizeValue(if b then "True" else "False") == Bool(b)
  {
    if b {
      LowerIs("True", "true");
      StripTrimmed("True");
    } else {
      LowerIs("False", "false");
      StripTrimmed("False");
    }
  }

  lemma LowerIs(t: string, l: string)
    requires |t| == |l| && forall i :: 0 <= i < |t| ==> LowerChar(t[i]) == l[i]
    ensures Lower(t) == l
  {
  }

  /** A value that stays text normalises to itself once more. */
  lemma NormalizeTextStable(value: string)
    requires NormalizeValue(value).Str?
    ensures NormalizeValue(NormalizeValue(value).s) == NormalizeValue(value)
  {
    NormalizeFloat(value);
    NormalizeStrip(value);
  }

  /** Normalising ignores surrounding whitespace. */
  lemma NormalizeStrip(value: string)
    ensures NormalizeValue(Strip(value)) == NormalizeValue(value)
  {
    StripTrimmed(Strip(value));
  }

  // ---------------------------------------------------------------------------
  // Keys.
  // ---------------------------------------------------------------------------

  predicate NoUpper(s: string) { forall i :: 0 <= i < |s| ==> !('A' <= s[i] <= 'Z') }

  /** A key as the parser writes it: no space and no upper-case ASCII letter. */
  predicate NormalKey(k: string) { ' ' !in k && NoUpper(k) }

  /** `g.lower().replace(" ", "_")` for a capture `g` that is already stripped. */
  function KeyName(g: string): (r: string)
    ensures NormalKey(r)
  {
    ReplaceNoUpper(Lower(g), ' ', "_");
    ReplaceChar(Lower(g), ' ', "_")
  }

  lemma {:induction false} ReplaceNoUpper(s: string, c: char, rep: string)
    requires NoUpper(s) && NoUpper(rep)
    ensures NoUpper(ReplaceChar(s, c, rep))
  {
    if |s| > 0 {
      ReplaceNoUpper(s[1..], c, rep);
    }
  }

  // ---------------------------------------------------------------------------
  // The section: `_extract_capwap_config_section`.
  // ---------------------------------------------------------------------------

  /** The lookahead `(?=\n\w+#)` holds at `q`: a line feed, a prompt name, then `#`. */
  predicate PromptAhead(s: string, q: nat)
  {
    q < |s| && s[q] == '\n' && q + 1 < RunEnd(s, q + 1, Word) < |s| && s[RunEnd(s, q + 1, Word)] == '#'
  }

  /** Where the lazy capture that starts at `g` stops: the first prompt ahead, or the end (`\Z`). */
  function SectionEnd(s: string, g: nat): (q: nat)
    requires g <= |s|
    ensures g <= q <= |s|
    ensures q < |s| ==> PromptAhead(s, q)
    ensures forall j :: g <= j < q ==> !PromptAhead(s, j)
    decreases |s| - g
  {
    if g == |s| || PromptAhead(s, g) then g else SectionEnd(s, g + 1)
  }

  /** The stripped capture `(.*?)` that starts at `g` and stops at the first prompt ahead. */
  function Capture(s: string, g: nat): (r: string)
    requires g <= |s|
    ensures Trimmed(r)
  {
    Strip(s[g..SectionEnd(s, g)])
  }

  /**
   * `re.search(r"show capwap client configuration\s*(.*?)(?=\n\w+#|\Z)", content,
   * DOTALL | IGNORECASE)`, its capture stripped, or "" without a match. The
   * lookahead always succeeds at the end, so the match starts at the first
   * occurrence of the command and the greedy `\s*` keeps all the whitespace.
   */
  function ExtractSection(content: string): (r: string)
    ensures Trimmed(r)
    ensures FindCI(content, Command).None? ==> r == ""
  {
    match FindCI(content, Command)
    case None => ""
    case Some(i) => Capture(content, SkipSpace(content, i + |Command|))
  }

  /** A prompt ahead inside a slice of `s` is one in `s` itself. */
  lemma PromptShift(s: string, a: nat, t: string, j: nat)
    requires At(s, a, t) && PromptAhead(t, j)
    ensures PromptAhead(s, a + j)
  {
    RunEndSlice(s, a, a + |t|, j + 1, Word);
    assert s[a + RunEnd(t, j + 1, Word)] == t[RunEnd(t, j + 1, Word)];
  }

  /** The capture is the text of `s` at some offset `a` at or after `g`. */
  lemma CaptureSlice(s: string, g: nat) returns (a: nat)
    requires g <= |s|
    ensures g <= a && a + |Capture(s, g)| <= SectionEnd(s, g) && At(s, a, Capture(s, g))
  {
    a := StripAt(s, g, SectionEnd(s, g));
  }

  /** No prompt lies inside the capture. */
  lemma CaptureNoPrompt(s: string, g: nat)
    requires g <= |s|
    ensures forall j: nat :: !PromptAhead(Capture(s, g), j)
  {
    var r := Capture(s, g);
    var a := CaptureSlice(s, g);
    forall j: nat | PromptAhead(r, j)
      ensures false
    {
      PromptShift(s, a, r, j);
    }
  }

  /** The capture after `n` characters at `i` is text of `s` that follows them. */
  lemma CaptureAfter(s: string, i: nat, n: nat, r: string) returns (a: nat)
    requires i + n <= |s| && r == Capture(s, SkipSpace(s, i + n))
    ensures i + n <= a && At(s, a, r)
  {
    a := CaptureSlice(s, SkipSpace(s, i + n));
  }

  /** The section is the capture that starts after the first occurrence of the command. */
  lemma SectionIsCapture(content: string)
    ensures FindCI(content, Command).Some? ==>
              ExtractSection(content) == Capture(content, SkipSpace(content, FindCI(content, Command).value + |Command|))
  {
  }

  /** The section is text of the output that follows the first occurrence of the command. */
  lemma SectionAfterCommand(content: string) returns (a: nat)
    ensures ExtractSection(content) != "" ==>
              FindCI(content, Command).Some? && FindCI(content, Command).value + |Command| <= a
    ensures At(content, a, ExtractSection(content))
  {
    if FindCI(content, Command).None? {
      a := 0;
      assert content[0..0] == [];
    } else {
      SectionIsCapture(content);
      a := CaptureAfter(content, FindCI(content, Command).value, |Command|, ExtractSection(content));
    }
  }

  /** The section stops before the next device prompt: no prompt line lies inside it. */
  lemma SectionStopsAtPrompt(content: string)
    ensures forall j: nat :: !PromptAhead(ExtractSection(content), j)
  {
    match FindCI(content, Command)
    case None =>
    case Some(i) =>
      CaptureNoPrompt(content, SkipSpace(content, i + |Command|));
  }

  // ---------------------------------------------------------------------------
  // Top-level settings: `_extract_main_config`.
  // ---------------------------------------------------------------------------

  /**
   * `re.match(r"^([^:]+?)\s*:\s*(.+?)$", t)` on a line, with both captures
   * stripped. Neither the key run nor the whitespace may hold a colon, so the
   * colon matched is the first; the key needs a character before it and the
   * value one after it; the stripping removes whatever whitespace the two
   * captures took around the colon.
   */
  function MainPair(t: string): (r: Option<(string, string)>)
    ensures r.Some? ==> ':' in t
  {
    match IndexOf(t, ':')
    case None => None
    case Some(c) => if 1 <= c && c + 1 < |t| then Some((Strip(t[..c]), Strip(t[c + 1..]))) else None
  }

  /** The assignment one line of the section makes to the top-level settings, if any. */
  function MainWrite(line: string): Option<(string, Value)>
  {
    var t := Strip(line);
    if t == "" || StartsWith(t, "Slot") || StartsWith(line, "    ") then None
    else match MainPair(t)
      case None => None
      case Some((k, v)) => Some((KeyName(k), NormalizeValue(v)))
  }

  /** The assignments of `lines`, one after another. */
  function MainWrites(lines: seq<string>): Fields
  {
    if |lines| == 0 then []
    else
      var w := MainWrites(lines[..|lines| - 1]);
      match MainWrite(lines[|lines| - 1])
      case None => w
      case Some(kv) => w + [kv]
  }

  /** The top-level settings of a section. */
  function MainConfig(section: string): Fields
  {
    MainConfigOf(Split(section, '\n'))
  }

  /** One more line extends the settings by that line's assignment, if it makes one. */
  lemma MainStep(lines: seq<string>, i: nat)
    requires i < |lines|
    ensures MainWrite(lines[i]).None? ==> MainConfigOf(lines[..i + 1]) == MainConfigOf(lines[..i])
    ensures MainWrite(lines[i]).Some? ==>
              MainConfigOf(lines[..i + 1]) == Put(MainConfigOf(lines[..i]), MainWrite(lines[i]).value.0, MainWrite(lines[i]).value.1)
  {
    assert lines[..i + 1][..i] == lines[..i];
    match MainWrite(lines[i])
    case None =>
    case Some((k, v)) => PutAllSnoc([], MainWrites(lines[..i]), k, v);
  }

  function MainConfigOf(lines: seq<string>): Fields
  {
    PutAll([], MainWrites(lines))
  }

  method ExtractMainConfig(section: string) returns (config: Fields)
    ensures config == MainConfig(section)
  {
    var lines := Split(section, '\n');
    config := [];
    var i := 0;
    while i < |lines|
      invariant 0 <= i <= |lines|
      invariant config == MainConfigOf(lines[..i])
    {
      var line := lines[i];
      MainStep(lines, i);
      var t := Strip(line);
      if t != "" && !StartsWith(t, "Slot") && !StartsWith(line, "    ") {
        var pair := MainPair(t);
        if pair.Some? {
          var key, value := KeyName(pair.value.0), NormalizeValue(pair.value.1);
          assert MainWrite(line) == Some((key, value));
          config := Put(config, key, value);
        } else {
          assert MainWrite(line).None?;
        }
      } else {
        assert MainWrite(line).None?;
      }
      i := i + 1;
    }
    assert lines[..i] == lines;
  }

  predicate ScalarEntry(k: string, v: Value) { NormalKey(k) && Scalar(v) }

  lemma {:induction false} MainWritesEntries(lines: seq<string>)
    ensures AllEntries(MainWrites(lines), ScalarEntry)
  {
    if |lines| > 0 {
      var w := MainWrites(lines[..|lines| - 1]);
      MainWritesEntries(lines[..|lines| - 1]);
      var m := MainWrite(lines[|lines| - 1]);
      if m.Some? {
        MainWriteEntry(lines[|lines| - 1]);
        SnocEntries(w, m.value, ScalarEntry);
      }
    }
  }

  /** A line's assignment has a normal key and a scalar value. */
  lemma MainWriteEntry(line: string)
    requires MainWrite(line).Some?
    ensures ScalarEntry(MainWrite(line).value.0, MainWrite(line).value.1)
  {
  }

  lemma SnocEntries(w: Fields, kv: (string, Value), P: (string, Value) -> bool)
    requires AllEntries(w, P) && P(kv.0, kv.1)
    ensures AllEntries(w + [kv], P)
  {
  }

  lemma {:induction false} PutAllEntries(d: Fields, w: Fields, P: (string, Value) -> bool)
    requires AllEntries(d, P) && AllEntries(w, P)
    ensures AllEntries(PutAll(d, w), P)
  {
    if |w| > 0 {
      var n := |w| - 1;
      assert AllEntries(w[..n], P) by {
        forall j | 0 <= j < n ensures P(w[..n][j].0, w[..n][j].1) {
          assert w[..n][j] == w[j];
        }
      }
      PutAllEntries(d, w[..n], P);
      PutEntries(PutAll(d, w[..n]), w[n].0, w[n].1, P);
    }
  }

  /** Every top-level key is lower case without spaces, and every value is a bool, int, float or text. */
  lemma MainConfigEntries(section: string)
    ensures AllEntries(MainConfig(section), ScalarEntry)
  {
    MainWritesEntries(Split(section, '\n'));
    PutAllEntries([], MainWrites(Split(section, '\n')), ScalarEntry);
  }

  /** Slot headers, indented lines and blank lines never reach the top-level settings. */
  lemma {:induction false} MainIgnoresSlotLines(pre: seq<string>, block: seq<string>)
    requires forall i :: 0 <= i < |block| ==>
               Strip(block[i]) == "" || StartsWith(Strip(block[i]), "Slot") || StartsWith(block[i], "    ")
    ensures MainWrites(pre + block) == MainWrites(pre)
    decreases |block|
  {
    if |block| > 0 {
      var n := |block| - 1;
      MainIgnoresSlotLines(pre, block[..n]);
      assert (pre + block)[..|pre + block| - 1] == pre + block[..n];
    } else {
      assert pre + block == pre;
    }
  }

  // ---------------------------------------------------------------------------
  // Slot headers: `re.finditer(r"Slot (\d+) Config:(.*?)(?=(?:Slot \d+ Config:|\Z))", ..., DOTALL)`.
  // ---------------------------------------------------------------------------

  /** `Slot (\d+) Config:` at offset `i`: the slot number's digits and the offset after the colon. */
  function SlotHeader(s: string, i: nat): (r: Option<(string, nat)>)
    ensures r.Some? ==> IsDigits(r.value.0) && i + 13 < r.value.1 <= |s|
  {
    if !At(s, i, "Slot ") then None
    else
      var e := RunEnd(s, i + 5, Digit);
      if e > i + 5 && At(s, e, " Config:") then
        DigitRun(s, i + 5);
        Some((s[i + 5..e], e + 8))
      else None
  }

  /** Where a slot's lazy body that starts at `p` stops: the next header, or the end (`\Z`). */
  function NextSlot(s: string, p: nat): (q: nat)
    requires p <= |s|
    ensures p <= q <= |s|
    ensures forall j :: p <= j < q ==> SlotHeader(s, j).None?
  {
    match SearchFrom(s, p, SlotHeader)
    case None => |s|
    case Some((q, _)) => q
  }

  /** One slot the iteration finds: `int(group(1))` and the raw `group(2)`. */
  datatype SlotMatch = SlotMatch(number: nat, body: string)

  /** The slots found from offset `from` on; each search resumes where the previous body stopped. */
  function SlotMatches(s: string, from: nat): seq<SlotMatch>
    requires from <= |s|
    decreases |s| - from
  {
    match SearchFrom(s, from, SlotHeader)
    case None => []
    case Some((i, (digits, e))) =>
      var q := NextSlot(s, e);
      [SlotMatch(DigitsValue(digits), s[e..q])] + SlotMatches(s, q)
  }

  /** Reference: the number of every `Slot N Config:` at or after `p`, in text order. */
  function HeaderNumbers(s: string, p: nat): seq<nat>
    decreases |s| - p
  {
    if p >= |s| then []
    else
      (match SlotHeader(s, p) case None => [] case Some((d, _)) => [DigitsValue(d)])
      + HeaderNumbers(s, p + 1)
  }

  function Numbers(ms: seq<SlotMatch>): (r: seq<nat>)
    ensures |r| == |ms| && forall i :: 0 <= i < |ms| ==> r[i] == ms[i].number
  {
    if |ms| == 0 then [] else [ms[0].number] + Numbers(ms[1..])
  }

  lemma {:induction false} NoHeaderSkip(s: string, p: nat, q: nat)
    requires p <= q && forall j :: p <= j < q ==> SlotHeader(s, j).None?
    ensures q <= |s| ==> HeaderNumbers(s, p) == HeaderNumbers(s, q)
    decreases q - p
  {
    if p < q {
      NoHeaderSkip(s, p + 1, q);
    }
  }

  /** No header starts inside another: only the first character of one is an `S`. */
  lemma HeaderInside(s: string, i: nat, j: nat)
    requires SlotHeader(s, i).Some? && i < j < SlotHeader(s, i).value.1
    ensures SlotHeader(s, j).None?
  {
    var e := SlotHeader(s, i).value.1 - 8;
    assert s[i..i + 5] == "Slot ";
    assert s[e..e + 8] == " Config:";
    if j < i + 5 {
      assert s[j] == "Slot "[j - i];
    } else if j < e {
      assert InClass(s[j], Digit);
    } else {
      assert s[j] == " Config:"[j - e];
    }
    assert s[j] != 'S';
  }

  /** From a found header, the reference numbers are that header's and those from the end of its body on. */
  lemma HeaderStep(s: string, from: nat, i: nat, digits: string, e: nat)
    requires from <= |s| && SearchFrom(s, from, SlotHeader) == Some((i, (digits, e)))
    ensures e <= |s| && HeaderNumbers(s, from) == [DigitsValue(digits)] + HeaderNumbers(s, NextSlot(s, e))
  {
    NoHeaderSkip(s, from, i);
    HeaderAt(s, i, digits, e);
    NoHeaderSkip(s, e, NextSlot(s, e));
  }

  /** A header contributes its number, and the next one can only start after it. */
  lemma HeaderAt(s: string, i: nat, digits: string, e: nat)
    requires SlotHeader(s, i) == Some((digits, e))
    ensures e <= |s| && HeaderNumbers(s, i) == [DigitsValue(digits)] + HeaderNumbers(s, e)
  {
    forall j | i + 1 <= j < e
      ensures SlotHeader(s, j).None?
    {
      HeaderInside(s, i, j);
    }
    NoHeaderSkip(s, i + 1, e);
  }

  /** One slot per `Slot N Config:` header, in the order the headers appear. */
  lemma {:induction false} SlotMatchesAllHeaders(s: string, from: nat)
    requires from <= |s|
    ensures Numbers(SlotMatches(s, from)) == HeaderNumbers(s, from)
    decreases |s| - from
  {
    match SearchFrom(s, from, SlotHeader)
    case None =>
      NoHeaderSkip(s, from, |s|);
    case Some((i, (digits, e))) =>
      var q := NextSlot(s, e);
      HeaderStep(s, from, i, digits, e);
      SlotMatchesAllHeaders(s, q);
      var ms := [SlotMatch(DigitsValue(digits), s[e..q])] + SlotMatches(s, q);
      assert SlotMatches(s, from) == ms;
      assert ms[1..] == SlotMatches(s, q);
  }

  /** A header inside a slice of `s` is one in `s` itself. */
  lemma HeaderShift(s: string, a: nat, b: nat, j: nat)
    requires a <= b <= |s| && SlotHeader(s[a..b], j).Some?
    ensures SlotHeader(s, a + j).Some?
  {
    var t := s[a..b];
    var e := RunEnd(t, j + 5, Digit);
    assert At(t, j, "Slot ") && At(t, e, " Config:");
    SliceOfSlice(s, a, b, j, 5);
    RunEndSlice(s, a, b, j + 5, Digit);
    SliceOfSlice(s, a, b, e, 8);
  }

  /** A stretch of `s` free of headers holds none as a text of its own. */
  lemma NoHeaderIn(s: string, p: nat, q: nat)
    requires p <= q <= |s| && forall j :: p <= j < q ==> SlotHeader(s, j).None?
    ensures forall j: nat :: SlotHeader(s[p..q], j).None?
  {
    forall j: nat | SlotHeader(s[p..q], j).Some?
      ensures false
    {
      HeaderShift(s, p, q, j);
    }
  }

  /** The lazy body stops at the next header: no slot's body holds a header. */
  lemma {:induction false} SlotBodiesHaveNoHeader(s: string, from: nat)
    requires from <= |s|
    ensures forall k, j: nat :: 0 <= k < |SlotMatches(s, from)| ==> SlotHeader(SlotMatches(s, from)[k].body, j).None?
    decreases |s| - from
  {
    match SearchFrom(s, from, SlotHeader)
    case None =>
    case Some((i, (digits, e))) =>
      var q := NextSlot(s, e);
      SlotBodiesHaveNoHeader(s, q);
      NoHeaderIn(s, e, q);
      var rest := SlotMatches(s, q);
      var ms := [SlotMatch(DigitsValue(digits), s[e..q])] + rest;
      assert SlotMatches(s, from) == ms;
      forall k, j: nat | 0 <= k < |ms|
        ensures SlotHeader(ms[k].body, j).None?
      {
        if k > 0 {
          assert ms[k] == rest[k - 1];
        }
      }
  }

  // ---------------------------------------------------------------------------
  // Settings of one slot: the line loop of `_extract_slot_configs`.
  // ---------------------------------------------------------------------------

  /** Number of leading whitespace characters; `^\s{6,}` matches when it is at least 6. */
  function Indent(line: string): nat
  {
    SkipSpace(line, 0)
  }

  /**
   * `^\s+([^:]+?)\s*:\s*$`: an indented `Name:` line with only whitespace after
   * the colon, which must be the first one. `\s+` can give back characters to
   * the capture, so one leading whitespace character and one more before the
   * colon are enough; the capture, stripped, is the whole text before the colon
   * stripped.
   */
  function HeaderName(line: string): (r: Option<string>)
    ensures r.Some? ==> ':' !in r.value && SkipSpace(line, 0) >= 1
  {
    match IndexOf(line, ':')
    case None => None
    case Some(c) =>
      if 2 <= c && IsSpace(line[0]) && SkipSpace(line, c + 1) == |line| then Some(Strip(line[..c])) else None
  }

  /**
   * `^\s+([^:]+?)\s*:\s*(.+?)$`: an indented `key: value` line. The value
   * capture needs one character after the first colon (whitespace will do, by
   * giving it back from `\s*`); both captures are stripped.
   */
  function SlotPair(line: string): (r: Option<(string, string)>)
    ensures r.Some? ==> ':' !in r.value.0 && SkipSpace(line, 0) >= 1
  {
    match IndexOf(line, ':')
    case None => None
    case Some(c) =>
      if 2 <= c && IsSpace(line[0]) && c + 1 < |line| then Some((Strip(line[..c]), Strip(line[c + 1..]))) else None
  }

  /**
   * The loop's variables: the slot's settings so far, `current_section` and
   * `current_section_data`. Python's `None` and `""` are both false in every
   * test the loop makes, so `""` stands for `None`.
   */
  datatype SlotState = SlotState(config: Fields, section: string, data: Fields)

  const SlotStart := SlotState([], "", [])

  /** `if current_section and current_section_data: slot_config[current_section] = current_section_data`. */
  function Flush(st: SlotState): (r: Fields)
  {
    if st.section != "" && |st.data| > 0 then Put(st.config, st.section, Obj(st.data)) else st.config
  }

  /** One line of a slot body. */
  function SlotStep(st: SlotState, line: string): SlotState
  {
    if Strip(line) == "" then st
    else match HeaderName(line)
      case Some(h) => SlotState(Flush(st), KeyName(h), [])
      case None =>
        match SlotPair(line)
        case None => st
        case Some((k, v)) =>
          if st.section != "" && Indent(line) >= 6 then SlotState(st.config, st.section, Put(st.data, KeyName(k), NormalizeValue(v)))
          else SlotState(Put(st.config, KeyName(k), NormalizeValue(v)), "", [])
  }

  /** The loop's variables after the lines `lines`. */
  function SlotRun(lines: seq<string>): SlotState
  {
    if |lines| == 0 then SlotStart else SlotStep(SlotRun(lines[..|lines| - 1]), lines[|lines| - 1])
  }

  /** The settings of a slot whose raw body is `body`. */
  function SlotConfig(body: string): Fields
  {
    Flush(SlotRun(Split(Strip(body), '\n')))
  }

  lemma SlotRunStep(lines: seq<string>, i: nat)
    requires i < |lines|
    ensures SlotRun(lines[..i + 1]) == SlotStep(SlotRun(lines[..i]), lines[i])
  {
    assert lines[..i + 1][..i] == lines[..i];
  }

  /** One turn of the inner loop: a header opens a subsection, a pair goes into it or into the slot. */
  method SlotLine(config: Fields, section: string, data: Fields, line: string)
    returns (config': Fields, section': string, data': Fields)
    ensures SlotState(config', section', data') == SlotStep(SlotState(config, section, data), line)
  {
    config', section', data' := config, section, data;
    if Strip(line) != "" {
      var header := HeaderName(line);
      if header.Some? {
        if section != "" && |data| > 0 {
          config' := Put(config, section, Obj(data));
        }
        section' := KeyName(header.value);
        data' := [];
      } else {
        var pair := SlotPair(line);
        if pair.Some? {
          var key, value := KeyName(pair.value.0), NormalizeValue(pair.value.1);
          if section != "" && Indent(line) >= 6 {
            data' := Put(data, key, value);
          } else {
            config' := Put(config, key, value);
            section' := "";
            data' := [];
          }
        }
      }
    }
  }

  /** The inner loop of `_extract_slot_configs` on one slot body. */
  method ExtractSlotConfig(body: string) returns (config: Fields)
    ensures config == SlotConfig(body)
  {
    var lines := Split(Strip(body), '\n');
    config := [];
    var section: string := "";
    var data: Fields := [];
    var i := 0;
    while i < |lines|
      invariant 0 <= i <= |lines|
      invariant SlotRun(lines[..i]) == SlotState(config, section, data)
    {
      SlotRunStep(lines, i);
      config, section, data := SlotLine(config, section, data, lines[i]);
      i := i + 1;
    }
    assert lines[..i] == lines;
    if section != "" && |data| > 0 {
      config := Put(config, section, Obj(data));
    }
  }

  /** A slot setting: a scalar, or a subsection holding at least one scalar setting. */
  predicate SlotEntryOk(k: string, v: Value)
  {
    NormalKey(k) && (Scalar(v) || (v.Obj? && |v.fields| > 0 && AllEntries(v.fields, ScalarEntry)))
  }

  /** What the loop's variables always satisfy. */
  predicate StateOk(st: SlotState)
  {
    AllEntries(st.config, SlotEntryOk) && NormalKey(st.section) && AllEntries(st.data, ScalarEntry)
  }

  lemma FlushOk(st: SlotState)
    requires StateOk(st)
    ensures AllEntries(Flush(st), SlotEntryOk)
  {
    if st.section != "" && |st.data| > 0 {
      PutEntries(st.config, st.section, Obj(st.data), SlotEntryOk);
    }
  }

  lemma StepOk(st: SlotState, line: string)
    requires StateOk(st)
    ensures StateOk(SlotStep(st, line))
  {
    if Strip(line) != "" {
      match HeaderName(line)
      case Some(h) => FlushOk(st);
      case None =>
        match SlotPair(line)
        case None =>
        case Some((k, v)) =>
          if st.section != "" && Indent(line) >= 6 {
            PutEntries(st.data, KeyName(k), NormalizeValue(v), ScalarEntry);
          } else {
            PutEntries(st.config, KeyName(k), NormalizeValue(v), SlotEntryOk);
          }
    }
  }

  lemma {:induction false} RunOk(lines: seq<string>)
    ensures StateOk(SlotRun(lines))
  {
    if |lines| > 0 {
      RunOk(lines[..|lines| - 1]);
      StepOk(SlotRun(lines[..|lines| - 1]), lines[|lines| - 1]);
    }
  }

  /** Every slot setting has a normalised key and is a scalar or a non-empty subsection of scalars. */
  lemma SlotConfigEntries(body: string)
    ensures AllEntries(SlotConfig(body), SlotEntryOk)
  {
    RunOk(Split(Strip(body), '\n'));
    FlushOk(SlotRun(Split(Strip(body), '\n')));
  }

  lemma SnocTwo<T>(a: seq<T>, x: T, y: T)
    ensures a + [x] + [y] == a + [x, y]
  {
  }

  lemma SnocThree<T>(a: seq<T>, x: T, y: T, z: T)
    ensures a + [x, y] + [z] == a + [x, y, z]
  {
  }

  lemma RunSnoc(pre: seq<string>, line: string)
    ensures SlotRun(pre + [line]) == SlotStep(SlotRun(pre), line)
  {
    assert (pre + [line])[..|pre|] == pre;
  }

  /** A line holding a colon is not blank. */
  lemma ColonNotBlank(line: string)
    requires ':' in line
    ensures Strip(line) != ""
  {
    if Strip(line) == "" {
      BlankAllSpace(line);
    }
  }

  /** The subsection a `Name:` line opens and one deeper `key: value` line fills. */
  predicate OpensSubsection(h: string, p: string)
  {
    HeaderName(h).Some? && KeyName(HeaderName(h).value) != "" &&
    HeaderName(p).None? && SlotPair(p).Some? && Indent(p) >= 6
  }

  /** A `Name:` line stores any open subsection and opens a new, empty one. */
  lemma HeaderLine(st: SlotState, h: string)
    requires HeaderName(h).Some?
    ensures SlotStep(st, h) == SlotState(Flush(st), KeyName(HeaderName(h).value), [])
  {
    ColonNotBlank(h);
  }

  /** A deeper `key: value` line inside an open subsection goes into it. */
  lemma NestedLine(st: SlotState, p: string)
    requires st.section != "" && HeaderName(p).None? && SlotPair(p).Some? && Indent(p) >= 6
    ensures SlotStep(st, p) ==
            SlotState(st.config, st.section, Put(st.data, KeyName(SlotPair(p).value.0), NormalizeValue(SlotPair(p).value.1)))
  {
    ColonNotBlank(p);
  }

  /** A `key: value` line outside a subsection, or too shallow for it, is a slot setting and closes the subsection. */
  lemma ShallowLine(st: SlotState, x: string)
    requires HeaderName(x).None? && SlotPair(x).Some? && (st.section == "" || Indent(x) < 6)
    ensures SlotStep(st, x) ==
            SlotState(Put(st.config, KeyName(SlotPair(x).value.0), NormalizeValue(SlotPair(x).value.1)), "", [])
  {
    ColonNotBlank(x);
  }

  /** The loop's variables after such a header and nested line: the subsection is open with one entry. */
  lemma OpenSubsection(pre: seq<string>, h: string, p: string)
    requires OpensSubsection(h, p)
    ensures SlotRun(pre + [h, p]) ==
            SlotState(Flush(SlotRun(pre)), KeyName(HeaderName(h).value),
                      [(KeyName(SlotPair(p).value.0), NormalizeValue(SlotPair(p).value.1))])
  {
    RunSnoc(pre, h);
    HeaderLine(SlotRun(pre), h);
    RunSnoc(pre + [h], p);
    NestedLine(SlotRun(pre + [h]), p);
    SnocTwo(pre, h, p);
  }

  /** A subsection still open when the slot ends is kept under its name. */
  lemma SubsectionKeptAtEnd(pre: seq<string>, h: string, p: string)
    requires OpensSubsection(h, p)
    ensures Flush(SlotRun(pre + [h, p])) ==
            Put(Flush(SlotRun(pre)), KeyName(HeaderName(h).value),
                Obj([(KeyName(SlotPair(p).value.0), NormalizeValue(SlotPair(p).value.1))]))
  {
    OpenSubsection(pre, h, p);
  }

  /** A subsection closed by the next `Name:` line is kept under its name. */
  lemma SubsectionKeptAtHeader(pre: seq<string>, h: string, p: string, h2: string)
    requires OpensSubsection(h, p) && HeaderName(h2).Some?
    ensures SlotRun(pre + [h, p, h2]).config ==
            Put(Flush(SlotRun(pre)), KeyName(HeaderName(h).value),
                Obj([(KeyName(SlotPair(p).value.0), NormalizeValue(SlotPair(p).value.1))]))
  {
    OpenSubsection(pre, h, p);
    RunSnoc(pre + [h, p], h2);
    HeaderLine(SlotRun(pre + [h, p]), h2);
    SnocThree(pre, h, p, h2);
  }

  /**
   * A shallower `key: value` line after an open subsection drops the
   * subsection's entries: only that key is written and the subsection closes
   * without being stored.
   */
  lemma SubsectionDiscarded(pre: seq<string>, h: string, p: string, x: string)
    requires OpensSubsection(h, p) && HeaderName(x).None? && SlotPair(x).Some? && Indent(x) < 6
    ensures SlotRun(pre + [h, p, x]) ==
            SlotState(Put(Flush(SlotRun(pre)), KeyName(SlotPair(x).value.0), NormalizeValue(SlotPair(x).value.1)), "", [])
    ensures KeyName(HeaderName(h).value) !in Keys(Flush(SlotRun(pre))) && KeyName(HeaderName(h).value) != KeyName(SlotPair(x).value.0) ==>
            KeyName(HeaderName(h).value) !in Keys(SlotRun(pre + [h, p, x]).config)
  {
    OpenSubsection(pre, h, p);
    RunSnoc(pre + [h, p], x);
    ShallowLine(SlotRun(pre + [h, p]), x);
    SnocThree(pre, h, p, x);
  }

  // ---------------------------------------------------------------------------
  // The slot list and the parser's result.
  // ---------------------------------------------------------------------------

  const NumberKey := "slot_number"
  const ConfigKey := "configuration"

  /** `{"slot_number": slot_num, "configuration": slot_config}`. */
  function SlotEntry(m: SlotMatch): Value
  {
    Obj([(NumberKey, Int(m.number)), (ConfigKey, Obj(SlotConfig(m.body)))])
  }

  function SlotEntries(ms: seq<SlotMatch>): (r: seq<Value>)
    ensures |r| == |ms|
  {
    if |ms| == 0 then [] else SlotEntries(ms[..|ms| - 1]) + [SlotEntry(ms[|ms| - 1])]
  }

  /** Entry `i` of the list is built from match `i`. */
  lemma {:induction false} SlotEntriesAt(ms: seq<SlotMatch>, i: nat)
    requires i < |ms|
    ensures SlotEntries(ms)[i] == SlotEntry(ms[i])
  {
    var n := |ms| - 1;
    var init := SlotEntries(ms[..n]);
    if i < n {
      SlotEntriesAt(ms[..n], i);
      SnocAt(init, SlotEntry(ms[n]), i);
      assert ms[..n][i] == ms[i];
    } else {
      SnocAt(init, SlotEntry(ms[n]), i);
    }
  }

  lemma SnocAt<T>(a: seq<T>, x: T, i: nat)
    requires i <= |a|
    ensures (a + [x])[i] == if i < |a| then a[i] else x
  {
  }

  /** The slot list of a section. */
  function Slots(section: string): seq<Value>
  {
    SlotEntries(SlotMatches(section, 0))
  }

  /** `_extract_slot_configs`: one entry per match, in match order. */
  method ExtractSlotConfigs(section: string) returns (slots: seq<Value>)
    ensures slots == Slots(section)
  {
    var ms := SlotMatches(section, 0);
    slots := [];
    var i := 0;
    while i < |ms|
      invariant 0 <= i <= |ms|
      invariant slots == SlotEntries(ms[..i])
    {
      var config := ExtractSlotConfig(ms[i].body);
      assert ms[..i + 1][..i] == ms[..i];
      slots := slots + [Obj([(NumberKey, Int(ms[i].number)), (ConfigKey, Obj(config))])];
      i := i + 1;
    }
    assert ms[..i] == ms;
  }

  /** Slot `i` of the list carries the number of the `i`-th `Slot N Config:` header. */
  lemma SlotsNumbered(section: string)
    ensures |Slots(section)| == |HeaderNumbers(section, 0)|
    ensures forall i :: 0 <= i < |Slots(section)| ==>
              Slots(section)[i] == Obj([(NumberKey, Int(HeaderNumbers(section, 0)[i])),
                                        (ConfigKey, Obj(SlotConfig(SlotMatches(section, 0)[i].body)))])
  {
    SlotMatchesAllHeaders(section, 0);
    forall i | 0 <= i < |Slots(section)|
      ensures Slots(section)[i] == SlotEntry(SlotMatches(section, 0)[i])
    {
      SlotEntriesAt(SlotMatches(section, 0), i);
    }
  }

  /** The result of `parse`. */
  function CapwapRecord(content: string): Fields
  {
    var section := ExtractSection(content);
    if section == "" then [(ResultKey, Obj([]))]
    else [(ResultKey, Obj(Put(MainConfig(section), "slots", Arr(Slots(section)))))]
  }

  /** `parse`. */
  method Parse(content: string) returns (result: Fields)
    ensures result == CapwapRecord(content)
  {
    var section := ExtractSection(content);
    if section == "" {
      return [(ResultKey, Obj([]))];
    }
    var main := ExtractMainConfig(section);
    var slots := ExtractSlotConfigs(section);
    result := [(ResultKey, Obj(Put(main, "slots", Arr(slots))))];
  }

  /** Without the command's output the result is the empty settings dict. */
  lemma RecordNoSection(content: string)
    requires FindCI(content, Command).None?
    ensures CapwapRecord(content) == [(ResultKey, Obj([]))]
  {
  }

  /** With a section, "slots" holds the slot list and every other key is a top-level setting. */
  lemma RecordNested(content: string)
    requires ExtractSection(content) != ""
    ensures CapwapRecord(content)[0].1.Obj?
    ensures Get(CapwapRecord(content)[0].1.fields, "slots") == Some(Arr(Slots(ExtractSection(content))))
    ensures forall k :: k != "slots" ==> Get(CapwapRecord(content)[0].1.fields, k) == Get(MainConfig(ExtractSection(content)), k)
  {
  }

  // ---------------------------------------------------------------------------
  // The result as the CSV exporter reads it.
  // ---------------------------------------------------------------------------

  /** A slot entry is one the exporter expands: a dict with an int number and a dict configuration. */
  lemma SlotEntryCsv(n: nat, c: Fields)
    ensures CsvColumns.SlotOk(Obj([(NumberKey, Int(n)), (ConfigKey, Obj(c))]))
  {
    var f := [(NumberKey, Int(n)), (ConfigKey, Obj(c))];
    assert f[1..] == [(ConfigKey, Obj(c))];
    assert Get(f, "configuration") == Some(Obj(c));
    assert Get(f, "slot_number") == Some(Int(n));
  }

  lemma SlotsCsv(section: string)
    ensures CsvColumns.SlotsOk(Slots(section))
  {
    var ms := SlotMatches(section, 0);
    forall i | 0 <= i < |Slots(section)|
      ensures CsvColumns.SlotOk(Slots(section)[i])
    {
      SlotEntriesAt(ms, i);
      SlotEntryCsv(ms[i].number, SlotConfig(ms[i].body));
    }
  }

  /** An entry the exporter reads without failing: a list under "slots" holds only expandable slots. */
  predicate CsvEntry(k: string, x: Value)
  {
    CsvColumns.SlotsEntry(k, x) ==> CsvColumns.SlotsOk(x.items)
  }

  lemma ScalarCsv(d: Fields)
    requires AllEntries(d, ScalarEntry)
    ensures AllEntries(d, CsvEntry)
  {
  }

  /** The parser's result always has the shape the CSV exporter expects of a record. */
  lemma RecordFeedsCsv(content: string)
    ensures CsvColumns.RecordOk(CapwapRecord(content))
  {
    var section := ExtractSection(content);
    if section != "" {
      var main := MainConfig(section);
      MainConfigEntries(section);
      ScalarCsv(main);
      SlotsCsv(section);
      PutEntries(main, "slots", Arr(Slots(section)), CsvEntry);
      var f := Put(main, "slots", Arr(Slots(section)));
      assert CsvColumns.DictOk(f);
    }
  }
}
