/**
 * Python string operations the parsers rely on: whitespace classes, ASCII case
 * mapping, `strip`, `split`, `find`, `replace`, `isdigit`, and the `int()` and
 * `float()` conversions of text.
 */
module Text {
  import opened Common

  /** Characters Python treats as whitespace, both for `str.strip` and for the regex class `\s`. */
  predicate IsSpace(c: char)
  {
    c == ' ' || c == '\t' || c == '\n' || c == '\r' || c == '\U{000B}' || c == '\U{000C}'
    || ('\U{001C}' <= c <= '\U{001F}') || c == '\U{0085}' || c == '\U{00A0}' || c == '\U{1680}'
    || ('\U{2000}' <= c <= '\U{200A}') || c == '\U{2028}' || c == '\U{2029}' || c == '\U{202F}'
    || c == '\U{205F}' || c == '\U{3000}'
  }

  predicate IsDigit(c: char) { '0' <= c <= '9' }

  predicate IsLetter(c: char) { 'a' <= c <= 'z' || 'A' <= c <= 'Z' }

  /** The regex class `\w`. */
  predicate IsWordChar(c: char) { IsLetter(c) || IsDigit(c) || c == '_' }

  /** The regex class `[A-Za-z0-9]`. */
  predicate IsAlnum(c: char) { IsLetter(c) || IsDigit(c) }

  function LowerChar(c: char): char
  {
    if 'A' <= c <= 'Z' then (c as int + 32) as char else c
  }

  function UpperChar(c: char): char
  {
    if 'a' <= c <= 'z' then (c as int - 32) as char else c
  }

  function Lower(s: string): string
  {
    seq(|s|, i requires 0 <= i < |s| => LowerChar(s[i]))
  }

  function Upper(s: string): string
  {
    seq(|s|, i requires 0 <= i < |s| => UpperChar(s[i]))
  }

  /** `s` holds `p` at offset `i`. */
  predicate At(s: string, i: nat, p: string)
  {
    i + |p| <= |s| && s[i..i + |p|] == p
  }

  /** `s` holds `p` at offset `i`, ignoring ASCII case (regex flag IGNORECASE). */
  predicate AtCI(s: string, i: nat, p: string)
  {
    i + |p| <= |s| && Lower(s[i..i + |p|]) == Lower(p)
  }

  /** `At` or `AtCI`, chosen by `ci`. */
  predicate AtCase(s: string, i: nat, p: string, ci: bool)
  {
    if ci then AtCI(s, i, p) else At(s, i, p)
  }

  predicate StartsWith(s: string, p: string) { At(s, 0, p) }

  /** The first offset at or after `i` where `p` occurs (`str.find(p, i)`). */
  function FindFrom(s: string, p: string, i: nat, ci: bool): (r: Option<nat>)
    ensures r.Some? ==> i <= r.value && r.value + |p| <= |s| && AtCase(s, r.value, p, ci)
    ensures r.Some? ==> forall j :: i <= j < r.value ==> !AtCase(s, j, p, ci)
    ensures r.None? ==> forall j :: i <= j ==> !AtCase(s, j, p, ci)
    decreases |s| - i
  {
    if i + |p| > |s| then None
    else if AtCase(s, i, p, ci) then Some(i)
    else FindFrom(s, p, i + 1, ci)
  }

  function Find(s: string, p: string): Option<nat> { FindFrom(s, p, 0, false) }

  function FindCI(s: string, p: string): Option<nat> { FindFrom(s, p, 0, true) }

  predicate Contains(s: string, p: string) { Find(s, p).Some? }

  /** The first index of character `c` in `s`. */
  function IndexOf(s: string, c: char): (r: Option<nat>)
    ensures r.Some? ==> r.value < |s| && s[r.value] == c && c !in s[..r.value]
    ensures r.None? ==> c !in s
  {
    if |s| == 0 then None
    else if s[0] == c then Some(0)
    else match IndexOf(s[1..], c)
      case None => None
      case Some(k) => assert s[..k + 1] == [s[0]] + s[1..][..k]; Some(k + 1)
  }

  /** The end of the run of whitespace that starts at `i`. */
  function SkipSpace(s: string, i: nat): (r: nat)
    requires i <= |s|
    ensures i <= r <= |s|
    ensures forall k :: i <= k < r ==> IsSpace(s[k])
    ensures r < |s| ==> !IsSpace(s[r])
    decreases |s| - i
  {
    if i < |s| && IsSpace(s[i]) then SkipSpace(s, i + 1) else i
  }

  /** `str.lstrip()`. */
  function LStrip(s: string): (r: string)
    ensures |r| <= |s| && r == s[|s| - |r|..]
    ensures |r| > 0 ==> !IsSpace(r[0])
    ensures forall k :: 0 <= k < |s| - |r| ==> IsSpace(s[k])
  {
    if |s| > 0 && IsSpace(s[0]) then
      var r := LStrip(s[1..]);
      assert forall k :: 1 <= k < |s| - |r| ==> s[k] == s[1..][k - 1];
      r
    else s
  }

  /** `str.rstrip()`. */
  function RStrip(s: string): (r: string)
    ensures |r| <= |s| && r == s[..|r|]
    ensures |r| > 0 ==> !IsSpace(r[|r| - 1])
    ensures forall k :: |r| <= k < |s| ==> IsSpace(s[k])
  {
    if |s| > 0 && IsSpace(s[|s| - 1]) then
      var r := RStrip(s[..|s| - 1]);
      assert forall k :: |r| <= k < |s| - 1 ==> s[k] == s[..|s| - 1][k];
      r
    else s
  }

  /** A single line: no line feed in it. */
  predicate NoBreak(s: string) { '\n' !in s }

  /** What `str.strip()` leaves: no whitespace at either end. */
  predicate Trimmed(s: string) { |s| > 0 ==> !IsSpace(s[0]) && !IsSpace(s[|s| - 1]) }

  /** `str.strip()`: the text without its leading and trailing whitespace. */
  function Strip(s: string): (r: string)
    ensures |r| <= |s|
    ensures Trimmed(r)
    ensures forall c :: c in r ==> c in s
  {
    RStrip(LStrip(s))
  }

  /** `str.lstrip(c)` for a single character `c`. */
  function LStripChar(s: string, c: char): (r: string)
    ensures |r| <= |s| && r == s[|s| - |r|..]
    ensures |r| > 0 ==> r[0] != c
  {
    if |s| > 0 && s[0] == c then LStripChar(s[1..], c) else s
  }

  /** `str.split(c)` for a one-character separator. */
  function Split(s: string, c: char): (r: seq<string>)
    ensures |r| >= 1
    ensures forall k :: 0 <= k < |r| ==> c !in r[k]
    decreases |s|
  {
    match IndexOf(s, c)
    case None => [s]
    case Some(i) => [s[..i]] + Split(s[i + 1..], c)
  }

  /** `c.join(parts)`. */
  function Join(parts: seq<string>, c: char): string
  {
    if |parts| == 0 then ""
    else if |parts| == 1 then parts[0]
    else parts[0] + [c] + Join(parts[1..], c)
  }

  /** `str.split(c)[-1]`. */
  function LastPiece(s: string, c: char): string
  {
    var parts := Split(s, c);
    parts[|parts| - 1]
  }

  /** `str.split(c)[0]`. */
  function FirstPiece(s: string, c: char): string
  {
    Split(s, c)[0]
  }

  /** Splitting and joining again gives back the text. */
  lemma {:induction false} JoinSplit(s: string, c: char)
    ensures Join(Split(s, c), c) == s
    decreases |s|
  {
    match IndexOf(s, c)
    case None =>
    case Some(i) =>
      var rest := Split(s[i + 1..], c);
      assert Split(s, c) == [s[..i]] + rest;
      JoinSplit(s[i + 1..], c);
      assert Join(Split(s, c), c) == s[..i] + [c] + Join(rest, c);
      assert s == s[..i] + [c] + s[i + 1..];
  }

  /** Joining pieces free of the separator and splitting again gives back the pieces. */
  lemma {:induction false} SplitJoin(parts: seq<string>, c: char)
    requires |parts| >= 1
    requires forall k :: 0 <= k < |parts| ==> c !in parts[k]
    ensures Split(Join(parts, c), c) == parts
    decreases |parts|
  {
    if |parts| > 1 {
      var s := Join(parts, c);
      var rest := Join(parts[1..], c);
      assert s == parts[0] + [c] + rest;
      assert s[|parts[0]|] == c;
      assert s[..|parts[0]|] == parts[0];
      assert c !in s[..|parts[0]|];
      assert IndexOf(s, c) == Some(|parts[0]|);
      assert s[|parts[0]| + 1..] == rest;
      SplitJoin(parts[1..], c);
    }
  }

  /** The end of the run of non-whitespace that starts at `i`. */
  function WordEnd(s: string, i: nat): (r: nat)
    requires i <= |s|
    ensures i <= r <= |s|
    ensures forall k :: i <= k < r ==> !IsSpace(s[k])
    ensures r < |s| ==> IsSpace(s[r])
    decreases |s| - i
  {
    if i < |s| && !IsSpace(s[i]) then WordEnd(s, i + 1) else i
  }

  /** `str.split()` with no argument: the maximal runs of non-whitespace. */
  function Tokens(s: string): (r: seq<string>)
    ensures forall k :: 0 <= k < |r| ==> IsWord(r[k])
    decreases |s|
  {
    var t := LStrip(s);
    if |t| == 0 then []
    else
      var e := WordEnd(t, 0);
      FirstWord(t);
      var rest := Tokens(t[e..]);
      WordsCons(t[..e], rest);
      [t[..e]] + rest
  }

  lemma FirstWord(t: string)
    requires |t| > 0 && !IsSpace(t[0])
    ensures 0 < WordEnd(t, 0) <= |t| && IsWord(t[..WordEnd(t, 0)])
  {
    var w := t[..WordEnd(t, 0)];
    assert forall j :: 0 <= j < |w| ==> w[j] == t[j];
  }

  /** A non-empty run of non-whitespace characters. */
  predicate IsWord(w: string) { |w| > 0 && forall j :: 0 <= j < |w| ==> !IsSpace(w[j]) }

  lemma WordsCons(w: string, rest: seq<string>)
    requires IsWord(w) && forall k :: 0 <= k < |rest| ==> IsWord(rest[k])
    ensures forall k :: 0 <= k < |[w] + rest| ==> IsWord(([w] + rest)[k])
  {
  }

  /** `str.replace(c, rep)` for a one-character pattern. */
  function ReplaceChar(s: string, c: char, rep: string): (r: string)
    ensures c !in rep ==> c !in r
  {
    if |s| == 0 then ""
    else (if s[0] == c then rep else [s[0]]) + ReplaceChar(s[1..], c, rep)
  }

  /** Every character is an ASCII digit (the empty text included). */
  predicate OnlyDigits(s: string) { forall k :: 0 <= k < |s| ==> IsDigit(s[k]) }

  /** `str.isdigit()`, restricted to ASCII digits. */
  predicate IsDigits(s: string) { |s| > 0 && OnlyDigits(s) }

  function DigitValue(c: char): nat requires IsDigit(c) { c as int - '0' as int }

  /** The number a run of decimal digits denotes. */
  function DigitsValue(s: string): nat
    requires OnlyDigits(s)
  {
    if |s| == 0 then 0 else DigitsValue(s[..|s| - 1]) * 10 + DigitValue(s[|s| - 1])
  }

  /** The value of the digits after a decimal point: `0.d1d2...`. */
  function FractionValue(s: string): (r: real)
    requires OnlyDigits(s)
    ensures 0.0 <= r <= 1.0
  {
    if |s| == 0 then 0.0 else (DigitValue(s[0]) as real + FractionValue(s[1..])) / 10.0
  }

  function DigitChar(d: nat): char requires d < 10 { ('0' as int + d) as char }

  /** `str(n)` for a natural number. */
  function NatToString(n: nat): (r: string)
    ensures IsDigits(r)
  {
    if n < 10 then [DigitChar(n)] else NatToString(n / 10) + [DigitChar(n % 10)]
  }

  /** `str(n)` for an integer. */
  function IntToString(n: int): string
  {
    if n < 0 then "-" + NatToString(-n) else NatToString(n)
  }

  /** The text after an optional leading sign, and whether that sign was a minus. */
  function SplitSign(s: string): (string, bool)
  {
    if |s| > 0 && (s[0] == '-' || s[0] == '+') then (s[1..], s[0] == '-') else (s, false)
  }

  /**
   * The digits of a decimal `int()` literal: digits, with single underscores
   * allowed between two digits (`1_000`), none leading or trailing.
   */
  predicate IntDigits(s: string)
  {
    |s| > 0 && forall k :: 0 <= k < |s| ==> GroupChar(s, k)
  }

  /** Position `k` holds a digit, or an underscore between two digits. */
  predicate GroupChar(s: string, k: nat)
    requires k < |s|
  {
    IsDigit(s[k]) || (s[k] == '_' && 0 < k < |s| - 1 && IsDigit(s[k - 1]) && IsDigit(s[k + 1]))
  }

  /** The text without its underscores. */
  function Ungrouped(s: string): (r: string)
    ensures (forall k :: 0 <= k < |s| ==> IsDigit(s[k]) || s[k] == '_') ==> OnlyDigits(r)
    ensures OnlyDigits(s) ==> r == s
  {
    if |s| == 0 then ""
    else
      var rest := Ungrouped(s[1..]);
      assert OnlyDigits(s) ==> OnlyDigits(s[1..]) && s == [s[0]] + s[1..];
      (if s[0] == '_' then "" else [s[0]]) + rest
  }

  /** Python `int(s)` of a text: surrounding whitespace, an optional sign, decimal digits (with `_` separators). */
  function ParseInt(s: string): Option<int>
  {
    ParseStrippedInt(Strip(s))
  }

  /** `int()` of a text that has no surrounding whitespace left. */
  function ParseStrippedInt(t: string): Option<int>
  {
    var (body, negative) := SplitSign(t);
    if IntDigits(body) then
      IntDigitsUngrouped(body);
      var n := DigitsValue(Ungrouped(body));
      Some(if negative then -(n as int) else n)
    else None
  }

  /** Plain digits are an `int()` literal denoting their own value. */
  lemma DigitsAreIntDigits(s: string)
    requires IsDigits(s)
    ensures IntDigits(s) && Ungrouped(s) == s
  {
  }

  lemma IntDigitsUngrouped(s: string)
    requires IntDigits(s)
    ensures OnlyDigits(Ungrouped(s))
  {
    assert forall k :: 0 <= k < |s| ==> GroupChar(s, k) && (IsDigit(s[k]) || s[k] == '_');
  }

  /** `int()` reads `a_b` as the digits of `a` followed by those of `b`. */
  lemma ParseIntGrouped(a: string, b: string)
    requires IsDigits(a) && IsDigits(b)
    ensures ParseStrippedInt(a + "_" + b) == Some(DigitsValue(a + b) as int)
    ensures ParseInt(a + "_" + b) == Some(DigitsValue(a + b) as int)
  {
    var t := a + "_" + b;
    GroupedDigits(a, b);
    UngroupedJoin(a, b);
    assert IsDigit(a[0]) && t[0] == a[0];
    assert SplitSign(t) == (t, false);
    assert IsDigit(b[|b| - 1]) && t[|t| - 1] == b[|b| - 1];
    StripTrimmed(t);
  }

  lemma GroupedDigits(a: string, b: string)
    requires IsDigits(a) && IsDigits(b)
    ensures IntDigits(a + "_" + b)
  {
    var t := a + "_" + b;
    forall k | 0 <= k < |t|
      ensures GroupChar(t, k)
    {
      if k < |a| {
        assert t[k] == a[k] && IsDigit(a[k]);
      } else if k == |a| {
        assert IsDigit(a[|a| - 1]) && IsDigit(b[0]);
        assert t[k] == '_' && t[k - 1] == a[|a| - 1] && t[k + 1] == b[0];
      } else {
        assert t[k] == b[k - |a| - 1] && IsDigit(b[k - |a| - 1]);
      }
    }
  }

  lemma UngroupedJoin(a: string, b: string)
    requires OnlyDigits(a) && OnlyDigits(b)
    ensures Ungrouped(a + "_" + b) == a + b
  {
    var u := "_" + b;
    assert a + "_" + b == a + u;
    assert Ungrouped(a + u) == Ungrouped(a) + Ungrouped(u) by {
      UngroupedConcat(a, u);
    }
    assert Ungrouped(u) == Ungrouped(b) by {
      assert u[1..] == b && u[0] == '_';
    }
    assert Ungrouped(a) == a && Ungrouped(b) == b;
  }

  lemma {:induction false} UngroupedConcat(a: string, b: string)
    ensures Ungrouped(a + b) == Ungrouped(a) + Ungrouped(b)
    decreases |a|
  {
    if |a| > 0 {
      assert (a + b)[1..] == a[1..] + b;
      UngroupedConcat(a[1..], b);
    } else {
      assert a + b == b;
    }
  }

  /** Two underscores in a row, or one at either end, are not `int()` digits. */
  lemma BadGrouping(a: string, b: string)
    ensures !IntDigits(a + "__" + b) && !IntDigits("_" + b) && !IntDigits(a + "_")
  {
    var t := a + "__" + b;
    assert t[|a|] == '_' && t[|a| + 1] == '_';
    assert !GroupChar(t, |a|);
    var v := "_" + b;
    assert v[0] == '_' && !GroupChar(v, 0);
    var u := a + "_";
    assert u[|u| - 1] == '_' && !GroupChar(u, |u| - 1);
  }


  /** Python `float(s)` of a decimal text: whitespace, an optional sign, digits with at most one dot. */
  function ParseFloat(s: string): Option<real>
  {
    ParseStrippedFloat(Strip(s))
  }

  /** `float()` of a text that has no surrounding whitespace left. */
  function ParseStrippedFloat(t: string): Option<real>
  {
    var (body, negative) := SplitSign(t);
    var magnitude :=
      match IndexOf(body, '.')
      case None => if IsDigits(body) then Some(DigitsValue(body) as real) else None
      case Some(d) =>
        var whole := body[..d];
        var frac := body[d + 1..];
        if OnlyDigits(whole) && OnlyDigits(frac) && |whole| + |frac| >= 1
        then Some(DigitsValue(whole) as real + FractionValue(frac))
        else None;
    match magnitude
    case None => None
    case Some(m) => Some(if negative then -m else m)
  }

  lemma {:induction false} DigitsValueNatToString(n: nat)
    ensures DigitsValue(NatToString(n)) == n
  {
    if n >= 10 {
      var s := NatToString(n);
      assert s[..|s| - 1] == NatToString(n / 10);
      DigitsValueNatToString(n / 10);
    }
  }

  lemma StripDigits(s: string)
    requires IsDigits(s)
    ensures Strip(s) == s
  {
    assert !IsSpace(s[0]);
    assert LStrip(s) == s;
    assert !IsSpace(s[|s| - 1]);
  }

  /** `str(n)`: digits after an optional leading minus, no whitespace at either end. */
  lemma IntToStringChars(n: int)
    ensures var t := IntToString(n);
      |t| > 0 && Trimmed(t) && '.' !in t &&
      (IsDigit(t[0]) || t[0] == '-') && forall i :: 1 <= i < |t| ==> IsDigit(t[i])
  {
    var t := IntToString(n);
    var m: nat := if n < 0 then -n else n;
    if n < 0 {
      assert t == "-" + NatToString(m);
      assert forall i :: 1 <= i < |t| ==> t[i] == NatToString(m)[i - 1];
    }
  }

  /** `int(str(n)) == n`. */
  lemma ParseIntIntToString(n: int)
    ensures ParseInt(IntToString(n)) == Some(n)
  {
    var t := IntToString(n);
    var m: nat := if n < 0 then -n else n;
    DigitsValueNatToString(m);
    if n < 0 {
      assert t == "-" + NatToString(m);
      assert LStrip(t) == t;
      assert !IsSpace(t[|t| - 1]);
      assert Strip(t) == t;
      assert t[1..] == NatToString(m);
    } else {
      StripDigits(t);
    }
  }

  lemma {:induction false} ReplaceKeeps(s: string, c: char, rep: string, d: char)
    requires d !in s && d !in rep
    ensures d !in ReplaceChar(s, c, rep)
  {
    if |s| > 0 {
      assert forall x :: x in s[1..] ==> x in s;
      ReplaceKeeps(s[1..], c, rep, d);
    }
  }

  /** Replacing a character by one character maps the text character by character. */
  lemma {:induction false} ReplaceSingle(s: string, c: char, x: char)
    ensures |ReplaceChar(s, c, [x])| == |s|
    ensures forall i :: 0 <= i < |s| ==> ReplaceChar(s, c, [x])[i] == if s[i] == c then x else s[i]
  {
    if |s| > 0 {
      ReplaceSingle(s[1..], c, x);
      assert forall i :: 1 <= i < |s| ==> s[1..][i - 1] == s[i];
    }
  }

  /** A text with digits on both sides of its first '.', after an optional sign, parses as a float. */
  lemma DecimalFloat(g: string, body: string, d: nat)
    requires body == SplitSign(g).0
    requires IndexOf(body, '.') == Some(d)
    requires IsDigits(body[..d]) && IsDigits(body[d + 1..])
    ensures ParseFloat(g).Some?
  {
    DecimalTrimmed(g, body, d);
    StripTrimmed(g);
    DecimalStripped(g, body, d);
  }

  lemma DecimalTrimmed(g: string, body: string, d: nat)
    requires body == SplitSign(g).0
    requires d < |body| && IsDigits(body[..d]) && IsDigits(body[d + 1..])
    ensures Trimmed(g)
  {
    assert IsDigit(body[..d][0]) && body[0] == body[..d][0];
    assert IsDigit(body[d + 1..][|body| - d - 2]);
  }

  lemma DecimalStripped(g: string, body: string, d: nat)
    requires body == SplitSign(g).0
    requires IndexOf(body, '.') == Some(d)
    requires IsDigits(body[..d]) && IsDigits(body[d + 1..])
    ensures ParseStrippedFloat(g).Some?
  {
  }

  lemma StripTrimmed(s: string)
    requires Trimmed(s)
    ensures Strip(s) == s
  {
    assert LStrip(s) == s;
    assert RStrip(s) == s;
  }

  /** `str.strip()` returns a slice of its argument. */
  lemma StripSlice(s: string) returns (off: nat)
    ensures off + |Strip(s)| <= |s| && Strip(s) == s[off..off + |Strip(s)|]
  {
    var l := LStrip(s);
    off := |s| - |l|;
    assert Strip(s) == RStrip(l);
    SliceOfSlice(s, off, |s|, 0, |RStrip(l)|);
  }

  /** A text that strips to nothing is all whitespace. */
  lemma BlankAllSpace(s: string)
    requires Strip(s) == ""
    ensures forall k :: 0 <= k < |s| ==> IsSpace(s[k])
  {
    assert |RStrip(LStrip(s))| == 0;
    assert |LStrip(s)| == 0;
  }

  lemma SliceOfSlice<T>(s: seq<T>, g: nat, q: nat, off: nat, n: nat)
    requires g <= q <= |s| && off + n <= q - g
    ensures s[g..q][off..off + n] == s[g + off..g + off + n]
  {
    var x, y := s[g..q][off..off + n], s[g + off..g + off + n];
    forall k | 0 <= k < n
      ensures x[k] == y[k]
    {
      assert x[k] == s[g..q][off + k];
    }
  }

  /** The stripped slice `s[g..q]` is the text of `s` at some offset inside the slice. */
  lemma StripAt(s: string, g: nat, q: nat) returns (a: nat)
    requires g <= q <= |s|
    ensures g <= a && a + |Strip(s[g..q])| <= q && At(s, a, Strip(s[g..q]))
  {
    var t := s[g..q];
    var off := StripSlice(t);
    a := AtSlice(s, g, q, off, Strip(t));
  }

  /** A piece of the slice `s[g..q]` is a piece of `s`. */
  lemma AtSlice(s: string, g: nat, q: nat, off: nat, r: string) returns (a: nat)
    requires g <= q <= |s| && off + |r| <= q - g && s[g..q][off..off + |r|] == r
    ensures a == g + off
    ensures g <= a && a + |r| <= q && At(s, a, r)
  {
    SliceOfSlice(s, g, q, off, |r|);
    a := g + off;
  }
}
