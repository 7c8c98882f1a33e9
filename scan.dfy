/**
 * Recognisers for the regular-expression shapes the parsers use. Each shape is
 * a literal tag followed by greedy runs of a character class; because every
 * run is followed by a character its class excludes, the greedy match is the
 * only one, and a recogniser computes it directly. `SearchFrom` gives the
 * leftmost-match behaviour of `re.search`.
 */
module Scan {
  import opened Common
  import opened Text

  /** Character classes that appear inside the capture groups. */
  datatype CharClass =
    | Digit         // \d
    | DigitDot      // [\d\.]
    | DigitDotDash  // [\d\.-]
    | DigitDash     // [\d-]
    | DigitColon    // [\d:]
    | Word          // \w
    | NonSpace      // [^\s]
    | NonSpaceComma // [^\s,]
    | HexColon      // [0-9a-fA-F:]
    | NonDashDot    // [^-.]
    | NonDot        // [^.]
    | NonNewline    // [^\n]
    | NonNewlineHash // [^\n#]
    | NonComma      // [^,]
    | NonCloseParen // [^)]
    | AlphaNum      // [A-Za-z0-9]

  /** `c` belongs to class `k` (one atom for the prover: the cases stay inside `ClassHas`). */
  predicate InClass(c: char, k: CharClass)
  {
    ClassHas(k, c) == true
  }

  function ClassHas(k: CharClass, c: char): bool
  {
    match k
    case Digit => IsDigit(c)
    case DigitDot => IsDigit(c) || c == '.'
    case DigitDotDash => IsDigit(c) || c == '.' || c == '-'
    case DigitDash => IsDigit(c) || c == '-'
    case DigitColon => IsDigit(c) || c == ':'
    case Word => IsWordChar(c)
    case NonSpace => !IsSpace(c)
    case NonSpaceComma => !IsSpace(c) && c != ','
    case HexColon => IsDigit(c) || ('a' <= c <= 'f') || ('A' <= c <= 'F') || c == ':'
    case NonDashDot => c != '-' && c != '.'
    case NonDot => c != '.'
    case NonNewline => c != '\n'
    case NonNewlineHash => c != '\n' && c != '#'
    case NonComma => c != ','
    case NonCloseParen => c != ')'
    case AlphaNum => IsAlnum(c)
  }

  /** The end of the maximal run of class `k` that starts at `i`. */
  function RunEnd(s: string, i: nat, k: CharClass): (r: nat)
    requires i <= |s|
    ensures i <= r <= |s|
    ensures forall j :: i <= j < r ==> InClass(s[j], k)
    ensures r < |s| ==> !InClass(s[r], k)
    decreases |s| - i
  {
    if i < |s| && InClass(s[i], k) then RunEnd(s, i + 1, k) else i
  }

  /** The offset of the first `\n` at or after `i`, or the end of the text. */
  function LineEnd(s: string, i: nat): (r: nat)
    requires i <= |s|
    ensures i <= r <= |s|
    ensures forall j :: i <= j < r ==> s[j] != '\n'
    ensures r < |s| ==> s[r] == '\n'
    decreases |s| - i
  {
    if i < |s| && s[i] != '\n' then LineEnd(s, i + 1) else i
  }

  /**
   * `re.search` for a pattern whose match attempt at one offset is `m`: the
   * first offset at or after `i` where `m` succeeds, with what it captured.
   */
  function SearchFrom<T>(s: string, i: nat, m: (string, nat) -> Option<T>): (r: Option<(nat, T)>)
    ensures r.Some? ==> i <= r.value.0 <= |s| && m(s, r.value.0) == Some(r.value.1)
    ensures r.Some? ==> forall j :: i <= j < r.value.0 ==> m(s, j).None?
    ensures r.None? ==> forall j :: i <= j <= |s| ==> m(s, j).None?
    decreases |s| + 1 - i
  {
    if i > |s| then None
    else match m(s, i)
      case Some(t) => Some((i, t))
      case None => SearchFrom(s, i + 1, m)
  }

  /** The first index from `i` on, before `stop`, whose element satisfies `p`; `stop` if none does. */
  function FirstFrom<T>(s: seq<T>, i: nat, stop: nat, p: T -> bool): (e: nat)
    requires i <= stop <= |s|
    ensures i <= e <= stop
    ensures e < stop ==> p(s[e])
    ensures forall m :: i <= m < e ==> !p(s[m])
    decreases stop - i
  {
    if i == stop || p(s[i]) then i else FirstFrom(s, i + 1, stop, p)
  }

  /** What the leftmost match captured, if any. */
  function Search<T>(s: string, m: (string, nat) -> Option<T>): Option<T>
  {
    match SearchFrom(s, 0, m)
    case None => None
    case Some((_, t)) => Some(t)
  }

  /** `tag\s*(k+)` at offset `i`: the run captured after the tag. */
  function LabelRun(s: string, i: nat, tag: string, k: CharClass, ci: bool): (r: Option<string>)
    ensures r.Some? ==> |r.value| > 0 && forall j :: 0 <= j < |r.value| ==> InClass(r.value[j], k)
  {
    if !AtCase(s, i, tag, ci) then None
    else
      var q := SkipSpace(s, i + |tag|);
      var e := RunEnd(s, q, k);
      if e > q then Some(s[q..e]) else None
  }

  /** `tag(k+)` at offset `i`, with no whitespace allowed between the tag and the run. */
  function TagRun(s: string, i: nat, tag: string, k: CharClass, ci: bool): (r: Option<string>)
    ensures r.Some? ==> |r.value| > 0 && forall j :: 0 <= j < |r.value| ==> InClass(r.value[j], k)
  {
    if !AtCase(s, i, tag, ci) then None
    else
      var e := RunEnd(s, i + |tag|, k);
      if e > i + |tag| then Some(s[i + |tag|..e]) else None
  }

  /** `tag\s*(true|false)` at offset `i`. */
  function LabelTrueFalse(s: string, i: nat, tag: string, ci: bool): (r: Option<string>)
    ensures r.Some? ==> Lower(r.value) == "true" || Lower(r.value) == "false"
  {
    if !AtCase(s, i, tag, ci) then None
    else
      var q := SkipSpace(s, i + |tag|);
      if AtCase(s, q, "true", ci) then Some(s[q..q + 4])
      else if AtCase(s, q, "false", ci) then Some(s[q..q + 5])
      else None
  }

  /** `tag\s*([\d-]+\s+[\d:]+)` at offset `i`: a date, whitespace and a time of day. */
  function LabelTimestamp(s: string, i: nat, tag: string, ci: bool): (r: Option<string>)
    ensures r.Some? ==> |r.value| >= 3 && InClass(r.value[0], DigitDash)
    ensures r.Some? ==> InClass(r.value[|r.value| - 1], DigitColon)
  {
    if !AtCase(s, i, tag, ci) then None
    else
      var q := SkipSpace(s, i + |tag|);
      var a := RunEnd(s, q, DigitDash);
      if a == q then None
      else
        var b := SkipSpace(s, a);
        if b == a then None
        else
          var c := RunEnd(s, b, DigitColon);
          if c == b then None else Some(s[q..c])
  }

  /**
   * `L1\s*([\d\.]+)S L2\s*([\d\.]+)S ... Ln\s*([\d\.]+)` at offset `i`, where the
   * separator `S` is `\s+` when `spaced` holds and `\s*` otherwise.
   */
  function NumberGroups(s: string, i: nat, tags: seq<string>, spaced: bool, ci: bool): (r: Option<seq<string>>)
    ensures r.Some? ==> |r.value| == |tags|
    ensures r.Some? ==> forall g :: 0 <= g < |r.value| ==> |r.value[g]| > 0
    decreases |tags|
  {
    if |tags| == 0 then Some([])
    else if !AtCase(s, i, tags[0], ci) then None
    else
      var q := SkipSpace(s, i + |tags[0]|);
      var e := RunEnd(s, q, DigitDot);
      if e == q then None
      else if |tags| == 1 then Some([s[q..e]])
      else
        var n := SkipSpace(s, e);
        if spaced && n == e then None
        else match NumberGroups(s, n, tags[1..], spaced, ci)
          case None => None
          case Some(rest) => Some([s[q..e]] + rest)
  }

  /** The last offset in `[p, q)` whose character is not a line feed. */
  function LastNonNewline(s: string, p: nat, q: nat): (r: Option<nat>)
    requires p <= q <= |s|
    ensures r.Some? ==> p <= r.value < q && s[r.value] != '\n'
    ensures r.Some? ==> forall j :: r.value < j < q ==> s[j] == '\n'
    ensures r.None? ==> forall j :: p <= j < q ==> s[j] == '\n'
    decreases q - p
  {
    if q == p then None
    else if s[q - 1] != '\n' then Some(q - 1)
    else LastNonNewline(s, p, q - 1)
  }

  /**
   * `\s*([^\n]+)` at offset `p`. The greedy `\s*` may run across line feeds; when
   * only whitespace remains, it gives back its last non-line-feed character.
   */
  function RestOfLine(s: string, p: nat): (r: Option<string>)
    ensures r.Some? ==> |r.value| > 0 && '\n' !in r.value
  {
    if p > |s| then None
    else
      var q := SkipSpace(s, p);
      if q < |s| then Some(s[q..LineEnd(s, q)])
      else match LastNonNewline(s, p, q)
        case None => None
        case Some(k) => Some(s[k..LineEnd(s, k)])
  }

  /** `tag([^\n]+)` after `\s*`: the tag is written with its own colon. */
  function LabelRest(s: string, i: nat, tag: string, ci: bool): (r: Option<string>)
    ensures r.Some? ==> |r.value| > 0 && '\n' !in r.value
  {
    if !AtCase(s, i, tag, ci) then None else RestOfLine(s, i + |tag|)
  }

  /** `tag\s*:\s*([^\n]+)` at offset `i`. */
  function ColonRest(s: string, i: nat, tag: string, ci: bool): (r: Option<string>)
    ensures r.Some? ==> |r.value| > 0 && '\n' !in r.value
  {
    if !AtCase(s, i, tag, ci) then None
    else
      var q := SkipSpace(s, i + |tag|);
      if q < |s| && s[q] == ':' then RestOfLine(s, q + 1) else None
  }

  /** The first `tag\s*:\s*([^\n]+)` in `s`: its capture, on one line. */
  function ColonSearch(s: string, tag: string, ci: bool): (r: Option<string>)
    ensures r.Some? ==> '\n' !in r.value
  {
    Search(s, (t: string, k: nat) => ColonRest(t, k, tag, ci))
  }

  /** Where the alternation `(?:^|\n)` tried at offset `p` lets the next group start, in the order tried. */
  function LineStarts(s: string, p: nat): seq<nat>
  {
    (if p == 0 then [0] else []) + (if p < |s| && s[p] == '\n' then [p + 1] else [])
  }

  /**
   * `([^\n#]+)#` at offset `g`: the offset of the `#` that ends a non-empty
   * prompt. The greedy run stops at the first `\n` or `#`, so it must be a `#`.
   */
  function PromptEnd(s: string, g: nat): (r: Option<nat>)
    ensures r.Some? ==> g < r.value < |s| && s[r.value] == '#'
    ensures r.Some? ==> forall j :: g <= j < r.value ==> s[j] != '\n' && s[j] != '#'
  {
    if g > |s| then None
    else
      var e := RunEnd(s, g, NonNewlineHash);
      if g < e < |s| && s[e] == '#' then Some(e) else None
  }

  /** A run of class `k` from `i` that stops at `r` is the maximal run: `RunEnd` is `r`. */
  lemma RunEndIs(s: string, i: nat, k: CharClass, r: nat)
    requires i <= r <= |s|
    requires forall j :: i <= j < r ==> InClass(s[j], k)
    requires r < |s| ==> !InClass(s[r], k)
    ensures RunEnd(s, i, k) == r
  {
  }

  /** A run inside the slice `s[a..b]` that stops before its end stops at the same place in `s`. */
  lemma RunEndSlice(s: string, a: nat, b: nat, i: nat, k: CharClass)
    requires a <= b <= |s| && i <= b - a
    requires RunEnd(s[a..b], i, k) < b - a
    ensures RunEnd(s, a + i, k) == a + RunEnd(s[a..b], i, k)
  {
    var t := s[a..b];
    var e := RunEnd(t, i, k);
    assert forall j :: a + i <= j < a + e ==> s[j] == t[j - a];
    assert s[a + e] == t[e];
    RunEndIs(s, a + i, k, a + e);
  }

  /** The maximal run of digits from `i` holds only digits. */
  lemma DigitRun(s: string, i: nat)
    requires i <= |s|
    ensures OnlyDigits(s[i..RunEnd(s, i, Digit)])
  {
    var e := RunEnd(s, i, Digit);
    forall j | 0 <= j < e - i
      ensures IsDigit(s[i..e][j])
    {
      assert s[i..e][j] == s[i + j] && InClass(s[i + j], Digit);
    }
  }
}
