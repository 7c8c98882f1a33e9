/**
 * `ap_gnss_stats/lib/utils.py`: the AP name and the capture time that a
 * transcript's file name carries, and the grouping of transcripts by AP.
 */
module Utils {
  import opened Common
  import opened Text
  import opened Json
  import opened Scan

  // ---------------------------------------------------------------------------
  // AP name: `get_ap_name_from_filename`.
  // ---------------------------------------------------------------------------

  /** A non-empty run of `[^-\.]`. */
  predicate Label(x: string)
  {
    |x| > 0 && forall j :: 0 <= j < |x| ==> x[j] != '-' && x[j] != '.'
  }

  lemma RunLabel(s: string, a: nat, b: nat)
    requires a < b <= |s| && b == RunEnd(s, a, NonDashDot)
    ensures Label(s[a..b])
  {
    forall j | 0 <= j < b - a
      ensures s[a..b][j] != '-' && s[a..b][j] != '.'
    {
      assert s[a..b][j] == s[a + j] && InClass(s[a + j], NonDashDot);
    }
  }

  lemma RunNoDot(s: string, a: nat, b: nat)
    requires a <= b <= |s| && b == RunEnd(s, a, NonDot)
    ensures '.' !in s[a..b]
  {
    forall j | 0 <= j < b - a
      ensures s[a..b][j] != '.'
    {
      assert s[a..b][j] == s[a + j] && InClass(s[a + j], NonDot);
    }
  }

  /** `putty-([^-\.]+)-([^-\.]+)-([^-\.]+)\.` at offset `i`: the second and third labels. */
  function PuttyAt(s: string, i: nat): (r: Option<(string, string)>)
    ensures r.Some? ==> Label(r.value.0) && Label(r.value.1)
  {
    if !At(s, i, "putty-") then None
    else
      var a := RunEnd(s, i + 6, NonDashDot);
      if a == i + 6 || a == |s| || s[a] != '-' then None
      else
        var b := RunEnd(s, a + 1, NonDashDot);
        if b == a + 1 || b == |s| || s[b] != '-' then None
        else
          var c := RunEnd(s, b + 1, NonDashDot);
          if c == b + 1 || c == |s| || s[c] != '.' then None
          else
            RunLabel(s, a + 1, b);
            RunLabel(s, b + 1, c);
            Some((s[a + 1..b], s[b + 1..c]))
  }

  /** `session-capture\.([^\.]+)\.` at offset `i`: the first label after the tag. */
  function SessionAt(s: string, i: nat): (r: Option<string>)
    ensures r.Some? ==> |r.value| > 0 && '.' !in r.value
  {
    if !At(s, i, "session-capture.") then None
    else
      var a := RunEnd(s, i + 16, NonDot);
      if a == i + 16 || a == |s| then None
      else
        RunNoDot(s, i + 16, a);
        Some(s[i + 16..a])
  }

  /**
   * The AP name of a file name: the putty pattern is searched first and gives
   * `"{group 2}-{group 3}"`; the session-capture pattern gives its label.
   */
  function ApNameFromFilename(filename: string): (r: Option<string>)
    ensures r.Some? ==> |r.value| > 0 && '.' !in r.value
  {
    match Search<(string, string)>(filename, PuttyAt)
    case Some((b, c)) => Some(b + "-" + c)
    case None => Search<string>(filename, SessionAt)
  }

  /** No `putty-` match can start inside a text that has no `p`. */
  lemma NoPuttyBefore(pre: string, s: string)
    requires 'p' !in pre && pre <= s
    ensures forall j :: 0 <= j < |pre| ==> PuttyAt(s, j).None?
  {
    forall j | 0 <= j < |pre|
      ensures PuttyAt(s, j).None?
    {
      assert s[j] == pre[j];
    }
  }

  /**
   * `putty-<site>-<type>-<ap>.<ext>`, after any prefix without a `p` (such as
   * the `YYYYMMDD-HHMMSS-` time stamp), names the AP `<type>-<ap>`.
   */
  lemma PuttyName(pre: string, a: string, b: string, c: string, ext: string)
    requires 'p' !in pre && Label(a) && Label(b) && Label(c)
    ensures ApNameFromFilename(pre + "putty-" + a + "-" + b + "-" + c + "." + ext) == Some(b + "-" + c)
  {
    var s := pre + "putty-" + a + "-" + b + "-" + c + "." + ext;
    PuttyLayout(pre, a, b, c, ext);
    PuttyAtIs(s, |pre|, a, b, c);
    NoPuttyBefore(pre, s);
    PuttyFirst(s, |pre|, (b, c));
  }

  /** Where each piece of a putty file name sits. */
  lemma PuttyLayout(pre: string, a: string, b: string, c: string, ext: string)
    ensures var s := pre + "putty-" + a + "-" + b + "-" + c + "." + ext;
      var i, p := |pre|, |pre| + 7 + |a|;
      var q := p + |b| + 1;
      pre <= s && At(s, i, "putty-") && At(s, i + 6, a) && At(s, p, b) && At(s, q, c) &&
      q + |c| < |s| && s[i + 6 + |a|] == '-' && s[p + |b|] == '-' && s[q + |c|] == '.'
  {
    var s := pre + "putty-" + a + "-" + b + "-" + c + "." + ext;
    var i := |pre|;
    var p := i + 7 + |a|;
    var q := p + |b| + 1;
    assert s[i..i + 6] == "putty-";
    assert s[i + 6..i + 6 + |a|] == a;
    assert s[p..p + |b|] == b;
    assert s[q..q + |c|] == c;
    assert pre <= s;
  }

  /** The three labels and their separators at `i` are what the putty pattern captures there. */
  lemma PuttyAtIs(s: string, i: nat, a: string, b: string, c: string)
    requires Label(a) && Label(b) && Label(c) && At(s, i, "putty-") && At(s, i + 6, a)
    requires i + 6 + |a| < |s| && s[i + 6 + |a|] == '-' && At(s, i + 7 + |a|, b)
    requires i + 7 + |a| + |b| < |s| && s[i + 7 + |a| + |b|] == '-' && At(s, i + 8 + |a| + |b|, c)
    requires i + 8 + |a| + |b| + |c| < |s| && s[i + 8 + |a| + |b| + |c|] == '.'
    ensures PuttyAt(s, i) == Some((b, c))
  {
    PuttyLabels(s, i, a, b, c);
    var ea := i + 6 + |a|;
    PuttyAtRuns(s, i, ea, ea + 1 + |b|, ea + 2 + |b| + |c|, b, c);
  }

  /** Each label ends where its separator stands. */
  lemma PuttyLabels(s: string, i: nat, a: string, b: string, c: string)
    requires Label(a) && Label(b) && Label(c) && At(s, i + 6, a)
    requires i + 6 + |a| < |s| && s[i + 6 + |a|] == '-' && At(s, i + 7 + |a|, b)
    requires i + 7 + |a| + |b| < |s| && s[i + 7 + |a| + |b|] == '-' && At(s, i + 8 + |a| + |b|, c)
    requires i + 8 + |a| + |b| + |c| < |s| && s[i + 8 + |a| + |b| + |c|] == '.'
    ensures RunEnd(s, i + 6, NonDashDot) == i + 6 + |a|
    ensures RunEnd(s, i + 7 + |a|, NonDashDot) == i + 7 + |a| + |b|
    ensures RunEnd(s, i + 8 + |a| + |b|, NonDashDot) == i + 8 + |a| + |b| + |c|
  {
    LabelEnds(s, i + 6, a, '-');
    LabelEnds(s, i + 7 + |a|, b, '-');
    LabelEnds(s, i + 8 + |a| + |b|, c, '.');
  }

  /** Three runs closed by '-', '-' and '.' after "putty-" match, capturing the last two. */
  lemma PuttyAtRuns(s: string, i: nat, ea: nat, eb: nat, ec: nat, b: string, c: string)
    requires At(s, i, "putty-")
    requires RunEnd(s, i + 6, NonDashDot) == ea && i + 6 < ea < |s| && s[ea] == '-'
    requires RunEnd(s, ea + 1, NonDashDot) == eb && ea + 1 < eb < |s| && s[eb] == '-'
    requires RunEnd(s, eb + 1, NonDashDot) == ec && eb + 1 < ec < |s| && s[ec] == '.'
    requires eb == ea + 1 + |b| && At(s, ea + 1, b) && ec == eb + 1 + |c| && At(s, eb + 1, c)
    ensures PuttyAt(s, i) == Some((b, c))
  {
    assert s[ea + 1..eb] == b && s[eb + 1..ec] == c;
  }

  /** A label followed by a separator is a maximal `[^-\.]` run. */
  lemma LabelEnds(s: string, i: nat, x: string, sep: char)
    requires Label(x) && At(s, i, x) && i + |x| < |s| && s[i + |x|] == sep && (sep == '-' || sep == '.')
    ensures RunEnd(s, i, NonDashDot) == i + |x|
  {
    forall j | i <= j < i + |x|
      ensures InClass(s[j], NonDashDot)
    {
      assert s[j] == s[i..i + |x|][j - i];
    }
    RunEndIs(s, i, NonDashDot, i + |x|);
  }

  /** A match at `i` with none before it is what the search returns. */
  lemma PuttyFirst(s: string, i: nat, t: (string, string))
    requires i <= |s| && PuttyAt(s, i) == Some(t) && forall j :: 0 <= j < i ==> PuttyAt(s, j).None?
    ensures Search(s, PuttyAt) == Some(t)
  {
    SearchAt(s, 0, i, PuttyAt);
  }

  lemma {:induction false} SearchAt<T>(s: string, from: nat, i: nat, m: (string, nat) -> Option<T>)
    requires from <= i <= |s| && m(s, i).Some? && forall j :: from <= j < i ==> m(s, j).None?
    ensures SearchFrom(s, from, m) == Some((i, m(s, i).value))
    decreases i - from
  {
    if from < i {
      SearchAt(s, from + 1, i, m);
    }
  }

  /**
   * `session-capture.<ap>.<rest>` names the AP `<ap>`, provided no putty
   * pattern occurs anywhere in the name (that one is tried first).
   */
  lemma SessionName(ap: string, rest: string)
    requires |ap| > 0 && '.' !in ap
    requires Search("session-capture." + ap + "." + rest, PuttyAt).None?
    ensures ApNameFromFilename("session-capture." + ap + "." + rest) == Some(ap)
  {
    var s := "session-capture." + ap + "." + rest;
    assert s[..16] == "session-capture." && s[0..16] == s[..16];
    assert s[16..16 + |ap|] == ap && s[16 + |ap|] == '.';
    forall j | 16 <= j < 16 + |ap|
      ensures InClass(s[j], NonDot)
    {
      assert s[j] == ap[j - 16];
    }
    RunEndIs(s, 16, NonDot, 16 + |ap|);
    assert SessionAt(s, 0) == Some(ap);
  }

  /**
   * No putty pattern occurs in `session-capture.<ap>.<rest>` when neither part
   * holds a `u`: the only `u` left is the one in "capture", after a `t`.
   */
  lemma NoPuttySession(ap: string, rest: string)
    requires 'u' !in ap && 'u' !in rest
    ensures Search("session-capture." + ap + "." + rest, PuttyAt).None?
  {
    var s := "session-capture." + ap + "." + rest;
    forall j | 0 <= j <= |s|
      ensures PuttyAt(s, j).None?
    {
      var k := j + 1;
      if k < 16 {
        SessionPrefix(s, j);
      }
      NotPuttyAt(s, j);
    }
  }

  /** "session-capture." holds no `pu`. */
  lemma SessionPrefix(s: string, j: nat)
    requires j < 15 && |s| >= 16 && s[..16] == "session-capture."
    ensures s[j] != 'p' || s[j + 1] != 'u'
  {
    assert s[j] == s[..16][j] && s[j + 1] == s[..16][j + 1];
  }

  /** The putty pattern needs `pu` where it starts. */
  lemma NotPuttyAt(s: string, j: nat)
    requires j + 1 < |s| ==> s[j] != 'p' || s[j + 1] != 'u'
    ensures PuttyAt(s, j).None?
  {
  }

  // ---------------------------------------------------------------------------
  // Capture time: `parse_timestamp_from_filename`.
  // ---------------------------------------------------------------------------

  /** What `datetime.strptime(..., "%Y-%m-%d %H:%M:%S")` returns. */
  datatype DateTime = DateTime(year: nat, month: nat, day: nat, hour: nat, minute: nat, second: nat)

  predicate LeapYear(y: nat)
  {
    y % 4 == 0 && (y % 100 != 0 || y % 400 == 0)
  }

  function DaysInMonth(y: nat, m: nat): nat
  {
    if m == 2 then (if LeapYear(y) then 29 else 28)
    else if m == 4 || m == 6 || m == 9 || m == 11 then 30
    else 31
  }

  /** The values `datetime` accepts: years 1 to 9999, a real calendar day, no leap second. */
  predicate ValidDateTime(t: DateTime)
  {
    1 <= t.year <= 9999 && 1 <= t.month <= 12 && 1 <= t.day <= DaysInMonth(t.year, t.month) &&
    t.hour < 24 && t.minute < 60 && t.second < 60
  }

  /** The date and time, or `None` where `strptime` raises `ValueError`. */
  function MakeDateTime(t: DateTime): (r: Option<DateTime>)
    ensures r.Some? <==> ValidDateTime(t)
    ensures r.Some? ==> r.value == t
  {
    if ValidDateTime(t) then Some(t) else None
  }

  /** `n` digits at offset `i`. */
  predicate DigitsAt(s: string, i: nat, n: nat)
  {
    i + n <= |s| && OnlyDigits(s[i..i + n])
  }

  function ValueAt(s: string, i: nat, n: nat): nat
    requires DigitsAt(s, i, n)
  {
    DigitsValue(s[i..i + n])
  }

  /** `^(\d{8})-(\d{6})`: `YYYYMMDD-HHMMSS` at the start of the name. */
  function CompactStamp(s: string): Option<DateTime>
  {
    if DigitsAt(s, 0, 8) && DigitsAt(s, 9, 6) && s[8] == '-' then
      DigitsIn(s, 0, 8, 0, 4);
      DigitsIn(s, 0, 8, 4, 6);
      DigitsIn(s, 0, 8, 6, 8);
      DigitsIn(s, 9, 6, 9, 11);
      DigitsIn(s, 9, 6, 11, 13);
      DigitsIn(s, 9, 6, 13, 15);
      MakeDateTime(DateTime(ValueAt(s, 0, 4), ValueAt(s, 4, 2), ValueAt(s, 6, 2), ValueAt(s, 9, 2), ValueAt(s, 11, 2), ValueAt(s, 13, 2)))
    else None
  }

  /** Every piece of a run of digits is a run of digits. */
  lemma DigitsIn(s: string, i: nat, n: nat, a: nat, b: nat)
    requires DigitsAt(s, i, n) && i <= a <= b <= i + n
    ensures DigitsAt(s, a, b - a)
  {
    var x, y := s[i..i + n], s[a..b];
    forall k | 0 <= k < b - a
      ensures IsDigit(y[k])
    {
      assert y[k] == x[a - i + k];
    }
  }

  /** `\.(\d{4}-\d{2}-\d{2}-\d{6})\.` at offset `i`: the offset where the group starts. */
  function DottedAt(s: string, i: nat): (r: Option<nat>)
    ensures r.Some? ==> r.value == i + 1 && i + 18 < |s|
  {
    if i + 18 < |s| && s[i] == '.' && DigitsAt(s, i + 1, 4) && s[i + 5] == '-' && DigitsAt(s, i + 6, 2) &&
       s[i + 8] == '-' && DigitsAt(s, i + 9, 2) && s[i + 11] == '-' && DigitsAt(s, i + 12, 6) && s[i + 18] == '.'
    then Some(i + 1)
    else None
  }

  /** The date of the dotted group starting at `g`, split at its last `-`. */
  function DottedStamp(s: string, i: nat): Option<DateTime>
    requires DottedAt(s, i).Some?
  {
    var g := i + 1;
    DigitsIn(s, g + 11, 6, g + 11, g + 13);
    DigitsIn(s, g + 11, 6, g + 13, g + 15);
    DigitsIn(s, g + 11, 6, g + 15, g + 17);
    MakeDateTime(DateTime(ValueAt(s, g, 4), ValueAt(s, g + 5, 2), ValueAt(s, g + 8, 2), ValueAt(s, g + 11, 2), ValueAt(s, g + 13, 2), ValueAt(s, g + 15, 2)))
  }

  /**
   * The capture time of a file name. A match whose date `strptime` rejects is
   * passed over and the next pattern is tried; only the leftmost match of the
   * dotted pattern is tried.
   */
  function ParseTimestamp(filename: string): (r: Option<DateTime>)
    ensures r.Some? ==> ValidDateTime(r.value)
  {
    match CompactStamp(filename)
    case Some(t) => Some(t)
    case None =>
      match SearchFrom(filename, 0, DottedAt)
      case None => None
      case Some((i, _)) => DottedStamp(filename, i)
  }

  /** `n` as exactly `w` decimal digits, zero-padded. */
  function Pad(n: nat, w: nat): (r: string)
    ensures |r| == w && OnlyDigits(r)
  {
    if w == 0 then [] else Pad(n / 10, w - 1) + [DigitChar(n % 10)]
  }

  function Pow10(w: nat): nat
  {
    if w == 0 then 1 else 10 * Pow10(w - 1)
  }

  lemma {:induction false} PadValue(n: nat, w: nat)
    requires n < Pow10(w)
    ensures DigitsValue(Pad(n, w)) == n
  {
    if w > 0 {
      PadValue(n / 10, w - 1);
      var p := Pad(n, w);
      assert p[..|p| - 1] == Pad(n / 10, w - 1);
    }
  }

  /** `YYYYMMDD-HHMMSS`. */
  function CompactText(t: DateTime): string
  {
    Pad(t.year, 4) + Pad(t.month, 2) + Pad(t.day, 2) + "-" + Pad(t.hour, 2) + Pad(t.minute, 2) + Pad(t.second, 2)
  }

  lemma PadAt(s: string, i: nat, n: nat, w: nat, p: string)
    requires p == Pad(n, w) && n < Pow10(w) && At(s, i, p)
    ensures DigitsAt(s, i, w) && ValueAt(s, i, w) == n
  {
    PadValue(n, w);
  }

  /** A name that starts with a valid time stamp `YYYYMMDD-HHMMSS` carries exactly that time. */
  lemma CompactRoundTrip(t: DateTime, rest: string)
    requires ValidDateTime(t)
    ensures ParseTimestamp(CompactText(t) + rest) == Some(t)
  {
    var s := CompactText(t) + rest;
    var y, mo, d, h, mi, se := Pad(t.year, 4), Pad(t.month, 2), Pad(t.day, 2), Pad(t.hour, 2), Pad(t.minute, 2), Pad(t.second, 2);
    assert s == y + mo + d + "-" + h + mi + se + rest;
    assert At(s, 0, y) && At(s, 4, mo) && At(s, 6, d) && s[8] == '-' && At(s, 9, h) && At(s, 11, mi) && At(s, 13, se) by {
      assert s[0..4] == y && s[4..6] == mo && s[6..8] == d && s[9..11] == h && s[11..13] == mi && s[13..15] == se;
    }
    PadAt(s, 0, t.year, 4, y);
    PadAt(s, 4, t.month, 2, mo);
    PadAt(s, 6, t.day, 2, d);
    PadAt(s, 9, t.hour, 2, h);
    PadAt(s, 11, t.minute, 2, mi);
    PadAt(s, 13, t.second, 2, se);
    DigitsJoin(s, 0, 4, 2);
    DigitsJoin(s, 0, 6, 2);
    DigitsJoin(s, 9, 2, 2);
    DigitsJoin(s, 9, 4, 2);
  }

  /** `.YYYY-MM-DD-HHMMSS.`, as in `session-capture.<ap>.2025-04-29-173449.474.txt`. */
  function DottedText(t: DateTime): string
  {
    "." + Pad(t.year, 4) + "-" + Pad(t.month, 2) + "-" + Pad(t.day, 2) + "-" + Pad(t.hour, 2) + Pad(t.minute, 2) + Pad(t.second, 2) + "."
  }

  /** Where each part of `DottedText(t)` sits. */
  lemma DottedChars(t: DateTime)
    ensures var x := DottedText(t);
      |x| == 19 && x[0] == '.' && x[5] == '-' && x[8] == '-' && x[11] == '-' && x[18] == '.' &&
      (forall k :: 0 <= k < 4 ==> x[1 + k] == Pad(t.year, 4)[k]) &&
      (forall k :: 0 <= k < 2 ==> x[6 + k] == Pad(t.month, 2)[k] && x[9 + k] == Pad(t.day, 2)[k]) &&
      (forall k :: 0 <= k < 2 ==> x[12 + k] == Pad(t.hour, 2)[k] && x[14 + k] == Pad(t.minute, 2)[k]) &&
      (forall k :: 0 <= k < 2 ==> x[16 + k] == Pad(t.second, 2)[k])
  {
  }

  lemma AtFromChars(s: string, i: nat, p: string)
    requires i + |p| <= |s| && forall k :: 0 <= k < |p| ==> s[i + k] == p[k]
    ensures At(s, i, p)
  {
    var w := s[i..i + |p|];
    assert forall k :: 0 <= k < |p| ==> w[k] == p[k];
  }

  /** The dotted stamp at offset `n` is recognised, and carries `t`. */
  lemma DottedAtText(s: string, n: nat, t: DateTime)
    requires ValidDateTime(t) && n + 19 <= |s| && s[n..n + 19] == DottedText(t)
    ensures DottedAt(s, n) == Some(n + 1) && DottedStamp(s, n) == Some(t)
  {
    var y, mo, d, h, mi, se := Pad(t.year, 4), Pad(t.month, 2), Pad(t.day, 2), Pad(t.hour, 2), Pad(t.minute, 2), Pad(t.second, 2);
    var x := DottedText(t);
    DottedChars(t);
    assert forall j :: 0 <= j < 19 ==> s[n + j] == x[j];
    AtFromChars(s, n + 1, y);
    AtFromChars(s, n + 6, mo);
    AtFromChars(s, n + 9, d);
    AtFromChars(s, n + 12, h);
    AtFromChars(s, n + 14, mi);
    AtFromChars(s, n + 16, se);
    assert s[n] == '.' && s[n + 5] == '-' && s[n + 8] == '-' && s[n + 11] == '-' && s[n + 18] == '.';
    PadAt(s, n + 1, t.year, 4, y);
    PadAt(s, n + 6, t.month, 2, mo);
    PadAt(s, n + 9, t.day, 2, d);
    PadAt(s, n + 12, t.hour, 2, h);
    PadAt(s, n + 14, t.minute, 2, mi);
    PadAt(s, n + 16, t.second, 2, se);
    DigitsJoin(s, n + 12, 2, 2);
    DigitsJoin(s, n + 12, 4, 2);
  }

  /**
   * A name whose first `.` opens a valid stamp `.YYYY-MM-DD-HHMMSS.` carries
   * exactly that time (the name must not start with the compact form).
   */
  lemma DottedRoundTrip(pre: string, t: DateTime, rest: string)
    requires ValidDateTime(t) && '.' !in pre && (|pre| > 0 ==> !IsDigit(pre[0]))
    ensures ParseTimestamp(pre + DottedText(t) + rest) == Some(t)
  {
    var s := pre + DottedText(t) + rest;
    var n := |pre|;
    assert s[n..n + 19] == DottedText(t);
    assert !IsDigit(s[0]) by {
      if n == 0 { assert s[0] == DottedText(t)[0]; } else { assert s[0] == pre[0]; }
    }
    assert |s| < 8 || !IsDigit(s[0..8][0]);
    forall j | 0 <= j < n
      ensures DottedAt(s, j).None?
    {
      assert s[j] == pre[j];
    }
    DottedAtText(s, n, t);
  }

  /** Two adjacent runs of digits make one. */
  lemma DigitsJoin(s: string, i: nat, n: nat, m: nat)
    requires DigitsAt(s, i, n) && DigitsAt(s, i + n, m)
    ensures DigitsAt(s, i, n + m)
  {
    var x, y, z := s[i..i + n + m], s[i..i + n], s[i + n..i + n + m];
    forall k | 0 <= k < n + m
      ensures IsDigit(x[k])
    {
      if k < n {
        assert x[k] == y[k];
      } else {
        assert x[k] == z[k - n];
      }
    }
  }

  /** `20250230-101648` names no day: the result is `None`, not an error. */
  lemma NoFebruaryThirtieth()
    ensures MakeDateTime(DateTime(2025, 2, 30, 10, 16, 48)).None?
  {
  }

  // ---------------------------------------------------------------------------
  // Grouping: `categorize_files_by_ap`.
  // ---------------------------------------------------------------------------

  /** `os.path.basename` with `/` separators: the text after the last `/`. */
  function Basename(path: string): (r: string)
    ensures '/' !in r && |r| <= |path| && r == path[|path| - |r|..]
  {
    if |path| == 0 || path[|path| - 1] == '/' then ""
    else
      var r := Basename(path[..|path| - 1]);
      assert path[..|path| - 1][|path| - 1 - |r|..] == path[|path| - 1 - |r|..|path| - 1];
      r + [path[|path| - 1]]
  }

  const Unknown := "unknown"

  /** The bucket a path goes into: its AP name, or `unknown`. */
  function BucketKey(path: string): string
  {
    match ApNameFromFilename(Basename(path))
    case Some(n) => n
    case None => Unknown
  }

  type Buckets = seq<(string, seq<string>)>

  /** `result.get(k, [])`. */
  function Bucket(d: Buckets, k: string): seq<string>
  {
    GetOr(d, k, [])
  }

  /** The dictionary after the paths `paths`, one after another. */
  function Categorized(paths: seq<string>): Buckets
  {
    if |paths| == 0 then []
    else
      var d := Categorized(paths[..|paths| - 1]);
      var p := paths[|paths| - 1];
      Put(d, BucketKey(p), Bucket(d, BucketKey(p)) + [p])
  }

  /** Reference: the paths whose bucket is `k`, in input order. */
  function PathsOf(paths: seq<string>, k: string): seq<string>
  {
    if |paths| == 0 then []
    else PathsOf(paths[..|paths| - 1], k) + (if BucketKey(paths[|paths| - 1]) == k then [paths[|paths| - 1]] else [])
  }

  /** One turn of the loop: the path is appended to its AP's list, created empty on first use. */
  method FilePath(result: Buckets, path: string) returns (next: Buckets)
    ensures next == Put(result, BucketKey(path), Bucket(result, BucketKey(path)) + [path])
  {
    var name := ApNameFromFilename(Basename(path));
    var key := if name.Some? then name.value else Unknown;
    next := result;
    if key !in Keys(next) {
      PutPut(next, key, path);
      next := Put(next, key, []);
    }
    next := Put(next, key, Bucket(next, key) + [path]);
  }

  /** `categorize_files_by_ap`. */
  method CategorizeFilesByAp(paths: seq<string>) returns (result: Buckets)
    ensures result == Categorized(paths)
  {
    result := [];
    var i := 0;
    while i < |paths|
      invariant 0 <= i <= |paths|
      invariant result == Categorized(paths[..i])
    {
      CategorizedStep(paths, i);
      result := FilePath(result, paths[i]);
      i := i + 1;
    }
    assert paths[..i] == paths;
  }

  /** Each bucket holds exactly the paths of its AP, in input order; no path is lost or repeated. */
  lemma {:induction false} BucketsArePaths(paths: seq<string>, k: string)
    ensures Bucket(Categorized(paths), k) == PathsOf(paths, k)
  {
    if |paths| > 0 {
      BucketsArePaths(paths[..|paths| - 1], k);
    }
  }

  /** Creating the empty list first changes nothing: the append then writes the same entry. */
  lemma PutPut(d: Buckets, key: string, path: string)
    requires key !in Keys(d)
    ensures Put(Put(d, key, []), key, Bucket(Put(d, key, []), key) + [path]) == Put(d, key, Bucket(d, key) + [path])
  {
    var e := Put(d, key, []);
    assert Get(e, key) == Some([]);
    assert Bucket(e, key) == [];
    assert Get(d, key).None?;
    assert Bucket(d, key) == [];
    assert Bucket(e, key) + [path] == [path] == Bucket(d, key) + [path];
    PutTwice(d, key, [], [path]);
  }

  lemma CategorizedStep(paths: seq<string>, i: nat)
    requires i < |paths|
    ensures Categorized(paths[..i + 1]) ==
            Put(Categorized(paths[..i]), BucketKey(paths[i]), Bucket(Categorized(paths[..i]), BucketKey(paths[i])) + [paths[i]])
  {
    assert paths[..i + 1][..i] == paths[..i];
  }

  /** Two assignments to the same key leave only the second. */
  lemma {:induction false} PutTwice<V>(d: seq<(string, V)>, k: string, v: V, w: V)
    ensures Put(Put(d, k, v), k, w) == Put(d, k, w)
    decreases |d|
  {
    if |d| > 0 && d[0].0 != k {
      PutTwice(d[1..], k, v, w);
      assert Put(d, k, v)[1..] == Put(d[1..], k, v);
    }
  }

  /** The buckets are keyed by the AP names that occur, each once, and no bucket is empty. */
  lemma {:induction false} CategorizedKeys(paths: seq<string>, k: string)
    ensures UniqueKeys(Categorized(paths))
    ensures k in Keys(Categorized(paths)) <==> |PathsOf(paths, k)| > 0
  {
    if |paths| > 0 {
      var n := |paths| - 1;
      CategorizedKeys(paths[..n], k);
      AppendKeys(Categorized(paths[..n]), BucketKey(paths[n]), paths[n], k, PathsOf(paths[..n], k));
    }
  }

  /** Appending to a bucket keeps the keys unique and makes its key present. */
  lemma AppendKeys(d: Buckets, key: string, p: string, k: string, before: seq<string>)
    requires UniqueKeys(d) && (k in Keys(d) <==> |before| > 0)
    ensures UniqueKeys(Put(d, key, Bucket(d, key) + [p]))
    ensures k in Keys(Put(d, key, Bucket(d, key) + [p])) <==> |before + (if key == k then [p] else [])| > 0
  {
  }
}
