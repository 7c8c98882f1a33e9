/**
 * The value rules of `ap_gnss_stats/lib/exporters/prometheus_exporter.py`:
 * the AP name that labels every metric, the values of the state, fix-type
 * and uptime gauges, the constellation tally, the classification of raw
 * values, and the connectivity decision. Gauges, registries and the push
 * itself are not modelled: a metric is the value it is set to.
 */
module Prometheus {
  import opened Common
  import opened Text
  import opened Json
  import opened Scan
  import Utils

  // ---------------------------------------------------------------------------
  // AP name: `_get_ap_name`.
  // ---------------------------------------------------------------------------

  /** `data.get(section, {}).get(key)`: `Null` when absent; a section that is not a dict raises. */
  function SubGet(data: Fields, section: string, key: string): (r: Result<Value>)
    ensures r.Failure? <==> Get(data, section).Some? && !Get(data, section).value.Obj?
    ensures Get(data, section).None? ==> r == Success(Null)
  {
    match Get(data, section)
    case None => Success(Null)
    case Some(v) => if v.Obj? then Success(Field(v.fields, key)) else Failure("AttributeError")
  }

  /** `(\w+)-ap(\d+)\.` at offset `i`: the word and the digits. */
  function WordApAt(s: string, i: nat): (r: Option<(string, string)>)
    ensures r.Some? ==> |r.value.0| > 0 && IsDigits(r.value.1)
  {
    if i > |s| then None
    else
      var e := RunEnd(s, i, Word);
      if e == i || !At(s, e, "-ap") then None
      else
        var d := RunEnd(s, e + 3, Digit);
        if d == e + 3 || d == |s| || s[d] != '.' then None
        else
          DigitRun(s, e + 3);
          Some((s[i..e], s[e + 3..d]))
  }

  /** Which of the three file-name patterns matched first, with its groups. */
  datatype FileMatch =
    | PuttyMatch(site: string, ap: string)
    | SessionMatch(session: string)
    | WordApMatch(word: string, digits: string)
    | NoMatch

  function FileNameMatch(f: string): FileMatch
  {
    match Search<(string, string)>(f, Utils.PuttyAt)
    case Some((b, c)) => PuttyMatch(b, c)
    case None =>
      match Search<string>(f, Utils.SessionAt)
      case Some(l) => SessionMatch(l)
      case None =>
        match Search<(string, string)>(f, WordApAt)
        case Some((w, d)) => WordApMatch(w, d)
        case None => NoMatch
  }

  /**
   * The name the file-name block returns, as written: `re.search` on a value
   * that is not a text raises `TypeError`; the session-capture pattern's text
   * contains `ap` (in "capture"), so its match takes the `'ap' in pattern`
   * branch, which asks for a group 2 the pattern does not have: `IndexError`.
   */
  function FromFileName(input: Value): (r: Result<Option<Value>>)
    ensures r.Success? && r.value.Some? ==> r.value.value.Str? && |r.value.value.s| > 0
  {
    if !input.Str? then Failure("TypeError")
    else match FileNameMatch(input.s)
      case PuttyMatch(b, c) => Success(Some(Str(b + "-" + c)))
      case SessionMatch(_) => Failure("IndexError")
      case WordApMatch(w, d) => Success(Some(Str(w + "-ap" + d)))
      case NoMatch => Success(None)
  }

  /** The file-name block as evidently intended: the session-capture match gives its label. */
  function FromFileNameIntended(input: Value): (r: Result<Option<Value>>)
    ensures r.Success? && r.value.Some? ==> r.value.value.Str? && |r.value.value.s| > 0
  {
    if !input.Str? then Failure("TypeError")
    else match FileNameMatch(input.s)
      case PuttyMatch(b, c) => Success(Some(Str(b + "-" + c)))
      case SessionMatch(l) => Success(Some(Str(l)))
      case WordApMatch(w, d) => Success(Some(Str(w + "-ap" + d)))
      case NoMatch => Success(None)
  }

  /**
   * The chain of sources in priority order: `main.main_ap_name`,
   * `show_version.ver_ap_name`, the file name in `metadata.input_file`,
   * `metadata.ap_address`, and finally `""`. A source counts when its value
   * is truthy; `intended` picks the corrected file-name block.
   */
  function ApNameChain(data: Fields, intended: bool): (r: Result<Value>)
    ensures r.Success? ==> Truthy(r.value) || r.value == Str("")
  {
    match SubGet(data, "main", "main_ap_name")
    case Failure(e) => Failure(e)
    case Success(main) =>
      if Truthy(main) then Success(main)
      else match SubGet(data, "show_version", "ver_ap_name")
        case Failure(e) => Failure(e)
        case Success(ver) =>
          if Truthy(ver) then Success(ver)
          else match SubGet(data, "metadata", "input_file")
            case Failure(e) => Failure(e)
            case Success(input) =>
              var named: Result<Option<Value>> :=
                if !Truthy(input) then Success(None) else if intended then FromFileNameIntended(input) else FromFileName(input);
              match named
              case Failure(e) => Failure(e)
              case Success(Some(n)) => Success(n)
              case Success(None) =>
                match SubGet(data, "metadata", "ap_address")
                case Failure(e) => Failure(e)
                case Success(address) => if Truthy(address) then Success(address) else Success(Str(""))
  }

  /** `_get_ap_name` as written. */
  function GetApName(data: Fields): (r: Result<Value>)
    ensures r.Success? ==> Truthy(r.value) || r.value == Str("")
  {
    ApNameChain(data, false)
  }

  /** `_get_ap_name` with the session-capture branch corrected. */
  function GetApNameIntended(data: Fields): (r: Result<Value>)
    ensures r.Success? ==> Truthy(r.value) || r.value == Str("")
  {
    ApNameChain(data, true)
  }

  /** The label the push uses: the looked-up name, or "unknown" when it is falsy. */
  function PushApName(data: Fields): (r: Result<Value>)
    ensures r.Success? ==> Truthy(r.value)
    ensures r.Failure? <==> GetApName(data).Failure?
    ensures GetApName(data).Success? && Truthy(GetApName(data).value) ==> r == GetApName(data)
  {
    match GetApName(data)
    case Failure(e) => Failure(e)
    case Success(n) => if Truthy(n) then Success(n) else Success(Str("unknown"))
  }

  /** The first truthy name wins: `main_ap_name` over everything else, `ver_ap_name` over the rest. */
  lemma ApNamePriority(data: Fields, intended: bool)
    requires Get(data, "main").Some? && Get(data, "main").value.Obj?
    ensures Truthy(Field(Get(data, "main").value.fields, "main_ap_name")) ==>
              ApNameChain(data, intended) == Success(Field(Get(data, "main").value.fields, "main_ap_name"))
    ensures !Truthy(Field(Get(data, "main").value.fields, "main_ap_name")) && Get(data, "show_version").Some? &&
            Get(data, "show_version").value.Obj? && Truthy(Field(Get(data, "show_version").value.fields, "ver_ap_name")) ==>
              ApNameChain(data, intended) == Success(Field(Get(data, "show_version").value.fields, "ver_ap_name"))
  {
  }

  /** A record whose only name source is its input file: `{"metadata": {"input_file": f}}`. */
  function FileOnly(f: string): Fields
  {
    [("metadata", Obj([("input_file", Str(f))]))]
  }

  lemma FileOnlyGets(f: string)
    ensures SubGet(FileOnly(f), "main", "main_ap_name") == Success(Null)
    ensures SubGet(FileOnly(f), "show_version", "ver_ap_name") == Success(Null)
    ensures SubGet(FileOnly(f), "metadata", "input_file") == Success(Str(f))
  {
  }

  /**
   * As written, a session-capture file name makes the lookup raise instead of
   * naming the AP: `session-capture.<ap>.<rest>` with no `u` in `<ap>` or
   * `<rest>` (so no putty match), for instance `session-capture.ap1.txt`.
   */
  lemma SessionCaptureRaises(ap: string, rest: string)
    requires |ap| > 0 && '.' !in ap && 'u' !in ap && 'u' !in rest
    ensures GetApName(FileOnly("session-capture." + ap + "." + rest)) == Failure("IndexError")
    ensures GetApNameIntended(FileOnly("session-capture." + ap + "." + rest)) == Success(Str(ap))
  {
    var f := "session-capture." + ap + "." + rest;
    Utils.NoPuttySession(ap, rest);
    Utils.SessionName(ap, rest);
    FileOnlyGets(f);
  }

  /** Corrected, the lookup names the AP as `get_ap_name_from_filename` in the utilities does. */
  lemma IntendedAgreesWithUtils(f: string, n: string)
    requires |f| > 0 && Utils.ApNameFromFilename(f) == Some(n)
    ensures GetApNameIntended(FileOnly(f)) == Success(Str(n))
  {
    FileOnlyGets(f);
  }

  // ---------------------------------------------------------------------------
  // GNSS-state gauges: `_create_gnss_state_metrics`.
  // ---------------------------------------------------------------------------

  /** `1 if gnss_state.get("state") == "Started" else 0`. */
  function StateValue(gs: Fields): (r: int)
    ensures r == 1 <==> Field(gs, "state") == Str("Started")
    ensures r == 0 || r == 1
  {
    if Field(gs, "state") == Str("Started") then 1 else 0
  }

  /** `fix_type`: 2 for "3D-Fix", 1 for "2D-Fix", 0 otherwise (absent counts as ""). */
  function FixTypeValue(gs: Fields): (r: int)
    ensures r == 2 <==> GetOr(gs, "fix_type", Str("")) == Str("3D-Fix")
    ensures r == 1 <==> GetOr(gs, "fix_type", Str("")) == Str("2D-Fix")
    ensures 0 <= r <= 2
  {
    var f := GetOr(gs, "fix_type", Str(""));
    if f == Str("3D-Fix") then 2 else if f == Str("2D-Fix") then 1 else 0
  }

  /** `1 if gnss_state.get(key, False) else 0`. */
  function FlagValue(gs: Fields, key: string): (r: int)
    ensures r == 1 <==> Truthy(GetOr(gs, key, Bool(false)))
    ensures r == 0 || r == 1
  {
    if Truthy(GetOr(gs, key, Bool(false))) then 1 else 0
  }

  /** The range-residual and GpGstRms gauges, each set to its value when that is not `None`. */
  function ExtraGauges(gs: Fields): (r: seq<(string, Value)>)
    ensures ("ap_gnss_rangeres", Field(gs, "rangeres")) in r <==> Field(gs, "rangeres") != Null
    ensures ("ap_gnss_gpgstrms", Field(gs, "gpgstrms")) in r <==> Field(gs, "gpgstrms") != Null
    ensures |r| <= 2 && forall j :: 0 <= j < |r| ==> r[j].1 != Null
  {
    (if Field(gs, "rangeres") != Null then [("ap_gnss_rangeres", Field(gs, "rangeres"))] else []) +
    (if Field(gs, "gpgstrms") != Null then [("ap_gnss_gpgstrms", Field(gs, "gpgstrms"))] else [])
  }

  /** The gauges the function sets, in order, with their values; their number is its metric count. */
  function StateGauges(gs: Fields): (r: seq<(string, Value)>)
    ensures 1 <= |r| <= 6
    ensures r[0].0 == "ap_gnss_state" && (r[0].1 == Int(0) || r[0].1 == Int(1))
  {
    if Truthy(GetOr(gs, "no_gnss_detected", Bool(false))) then [("ap_gnss_state", Int(0))]
    else [("ap_gnss_state", Int(StateValue(gs))), ("ap_gnss_fix_type", Int(FixTypeValue(gs))),
          ("ap_gnss_valid_fix", Int(FlagValue(gs, "valid_fix"))),
          ("ap_gnss_external_antenna", Int(FlagValue(gs, "external_antenna")))] + ExtraGauges(gs)
  }

  /**
   * With no GNSS detected only the state gauge is set, to 0; otherwise the
   * state is 1 only when started, the fix type follows, and the optional
   * gauges come last.
   */
  lemma StateGaugesNoGnss(gs: Fields)
    ensures Truthy(GetOr(gs, "no_gnss_detected", Bool(false))) <==> |StateGauges(gs)| == 1
    ensures Truthy(GetOr(gs, "no_gnss_detected", Bool(false))) ==> StateGauges(gs)[0].1 == Int(0)
    ensures !Truthy(GetOr(gs, "no_gnss_detected", Bool(false))) ==>
              (StateGauges(gs)[0].1 == Int(1) <==> Field(gs, "state") == Str("Started")) &&
              StateGauges(gs)[1].1 == Int(FixTypeValue(gs)) &&
              StateGauges(gs)[4..] == ExtraGauges(gs)
  {
    var r := StateGauges(gs);
    if !Truthy(GetOr(gs, "no_gnss_detected", Bool(false))) {
      var fixed := [("ap_gnss_state", Int(StateValue(gs))), ("ap_gnss_fix_type", Int(FixTypeValue(gs))),
                    ("ap_gnss_valid_fix", Int(FlagValue(gs, "valid_fix"))),
                    ("ap_gnss_external_antenna", Int(FlagValue(gs, "external_antenna")))];
      assert r == fixed + ExtraGauges(gs);
      assert r[4..] == ExtraGauges(gs);
    }
  }

  // ---------------------------------------------------------------------------
  // Uptime: `_create_uptime_metrics`.
  // ---------------------------------------------------------------------------

  /** `int(x)` toward zero for a float. */
  function Trunc(r: real): (n: int)
    ensures n as real <= r < n as real + 1.0 || n as real - 1.0 < r <= n as real
  {
    if r >= 0.0 then r.Floor else -((-r).Floor)
  }

  /** Python `int(v)`, or `None` where it raises `ValueError` or `TypeError`. */
  function PyInt(v: Value): Option<int>
  {
    match v
    case Int(i) => Some(i)
    case Bool(b) => Some(if b then 1 else 0)
    case Num(r) => Some(Trunc(r))
    case Str(s) => ParseInt(s)
    case _ => None
  }

  /** `int()` of a text reads digit separators as Python does: `int("1_0") == 10`. */
  lemma PyIntGrouped(a: string, b: string)
    requires IsDigits(a) && IsDigits(b)
    ensures PyInt(Str(a + "_" + b)) == Some(DigitsValue(a + b) as int)
  {
    ParseIntGrouped(a, b);
  }

  const DayKey := "ap_uptime_days"
  const HourKey := "ap_uptime_hours"
  const MinuteKey := "ap_uptime_minutes"

  /** The uptime gauge's value: `ver_uptime_seconds`, else the three parts combined, else none. */
  function UptimeSeconds(sv: Fields): (r: Option<Value>)
    ensures Field(sv, "ver_uptime_seconds") != Null ==> r == Some(Field(sv, "ver_uptime_seconds"))
    ensures Field(sv, "ver_uptime_seconds") == Null && r.Some? ==>
              r.value.Int? && PyInt(Field(sv, DayKey)).Some? && PyInt(Field(sv, HourKey)).Some? && PyInt(Field(sv, MinuteKey)).Some?
  {
    var given := Field(sv, "ver_uptime_seconds");
    if given != Null then Some(given)
    else CombinedUptime(Field(sv, DayKey), Field(sv, HourKey), Field(sv, MinuteKey))
  }

  /** Days, hours and minutes combined into seconds, when all three are present and `int()` accepts each. */
  function CombinedUptime(days: Value, hours: Value, minutes: Value): (r: Option<Value>)
    ensures r.Some? <==> days != Null && hours != Null && minutes != Null &&
                         PyInt(days).Some? && PyInt(hours).Some? && PyInt(minutes).Some?
    ensures r.Some? ==> r == Some(Int(PyInt(days).value * 86400 + PyInt(hours).value * 3600 + PyInt(minutes).value * 60))
  {
    if days == Null || hours == Null || minutes == Null then None
    else
      var d, h, m := PyInt(days), PyInt(hours), PyInt(minutes);
      if d.None? || h.None? || m.None? then None
      else Some(Int(d.value * 86400 + h.value * 3600 + m.value * 60))
  }

  /** Whole parts of a real uptime combine into seconds that decompose back into the same parts. */
  lemma UptimeFromParts(sv: Fields, d: nat, h: nat, m: nat)
    requires Field(sv, "ver_uptime_seconds") == Null
    requires Field(sv, DayKey) == Int(d) && Field(sv, HourKey) == Int(h) && Field(sv, MinuteKey) == Int(m)
    requires h < 24 && m < 60
    ensures UptimeSeconds(sv) == Some(Int(d * 86400 + h * 3600 + m * 60))
    ensures var s := d * 86400 + h * 3600 + m * 60;
            s / 86400 == d && (s % 86400) / 3600 == h && (s % 3600) / 60 == m && s % 60 == 0
  {
    UptimeFromGivenParts(sv);
    CombinedWholeParts(d, h, m);
    UptimeParts(d, h, m);
  }

  /** Without `ver_uptime_seconds`, the gauge's value is what the three parts combine into. */
  lemma UptimeFromGivenParts(sv: Fields)
    requires Field(sv, "ver_uptime_seconds") == Null
    ensures UptimeSeconds(sv) == CombinedUptime(Field(sv, DayKey), Field(sv, HourKey), Field(sv, MinuteKey))
  {
  }

  /** Integer parts combine into days times 86400, hours times 3600 and minutes times 60. */
  lemma CombinedWholeParts(d: int, h: int, m: int)
    ensures CombinedUptime(Int(d), Int(h), Int(m)) == Some(Int(d * 86400 + h * 3600 + m * 60))
  {
  }

  /** Days, hours under 24 and minutes under 60 are recovered from the seconds they add up to. */
  lemma UptimeParts(d: nat, h: nat, m: nat)
    requires h < 24 && m < 60
    ensures var s := d * 86400 + h * 3600 + m * 60;
            s / 86400 == d && (s % 86400) / 3600 == h && (s % 3600) / 60 == m && s % 60 == 0
  {
    var inDay := h * 3600 + m * 60;
    DivBy(d, inDay, 86400);
    DivBy(h, m * 60, 3600);
    DivBy(d * 24 + h, m * 60, 3600);
    DivBy(m, 0, 60);
    DivBy(d * 1440 + h * 60 + m, 0, 60);
  }

  /** Whole division of `q * k + r` by `k`, for a remainder below `k`. */
  lemma DivBy(q: int, r: int, k: int)
    requires k == 86400 || k == 3600 || k == 60
    requires 0 <= r < k
    ensures (q * k + r) / k == q && (q * k + r) % k == r
  {
  }

  /** A part that is missing or not an integer leaves the uptime unset. */
  lemma UptimeNeedsAllParts(sv: Fields)
    requires Field(sv, "ver_uptime_seconds") == Null
    requires Field(sv, DayKey) == Null || PyInt(Field(sv, HourKey)).None?
    ensures UptimeSeconds(sv).None?
  {
  }

  // ---------------------------------------------------------------------------
  // Constellation tally: the counting loop of `_create_satellite_metrics`.
  // ---------------------------------------------------------------------------

  /** The dictionary key `(constellation, used, band)`. */
  datatype ConstKey = ConstKey(constellation: Value, used: string, band: Value)

  /** A value Python can hash: not a dict or a list. */
  predicate Hashable(v: Value) { !v.Obj? && !v.Arr? }

  /**
   * A satellite's key, or `None` where Python raises: `.get` on a satellite
   * that is not a dict, `.lower()` on a `used` that is not a text, or an
   * unhashable constellation or band.
   */
  function SatKey(sat: Value): (r: Option<ConstKey>)
    ensures r.Some? ==> r.value.used == "yes" || r.value.used == "no"
  {
    if !sat.Obj? then None
    else
      var used := GetOr(sat.fields, "used", Str(""));
      var constellation := GetOr(sat.fields, "constellation", Str("Unknown"));
      var band := GetOr(sat.fields, "band", Str("unknown"));
      if !used.Str? || !Hashable(constellation) || !Hashable(band) then None
      else Some(ConstKey(constellation, if Lower(used.s) == "yes" then "yes" else "no", band))
  }

  /** The number a bool, int or float stands for under Python's `==`; `None` for other values. */
  function NumberOf(v: Value): Option<real>
  {
    match v
    case Bool(b) => Some(if b then 1.0 else 0.0)
    case Int(i) => Some(i as real)
    case Num(r) => Some(r)
    case _ => None
  }

  /** Python `==` on hashable values: `True == 1 == 1.0`, and they hash alike; other values compare as they are. */
  predicate PyEqual(a: Value, b: Value)
  {
    if NumberOf(a).Some? || NumberOf(b).Some? then NumberOf(a) == NumberOf(b) else a == b
  }

  /** Two keys are one dict entry when their tuples are equal element by element. */
  predicate SameKey(a: ConstKey, b: ConstKey)
  {
    PyEqual(a.constellation, b.constellation) && a.used == b.used && PyEqual(a.band, b.band)
  }

  /** What `==` on keys looks at: the numeric value of a number or bool, the value itself otherwise. */
  function KeyClass(k: ConstKey): (Option<real>, Value, string, Option<real>, Value)
  {
    (NumberOf(k.constellation), if NumberOf(k.constellation).Some? then Null else k.constellation,
     k.used,
     NumberOf(k.band), if NumberOf(k.band).Some? then Null else k.band)
  }

  /** Keys are equal exactly when their classes are, so key equality is an equivalence. */
  lemma SameKeyClass()
    ensures forall a, b :: SameKey(a, b) <==> KeyClass(a) == KeyClass(b)
  {
  }

  type Tally = seq<(ConstKey, nat)>

  /** `counts.get(k, 0)`: the count of the entry equal to `k`. */
  function CountIn(t: Tally, k: ConstKey): nat
  {
    if |t| == 0 then 0 else if SameKey(t[0].0, k) then t[0].1 else CountIn(t[1..], k)
  }

  /** No entry of `t` is equal to `k`. */
  predicate Fresh(t: Tally, k: ConstKey)
  {
    forall i :: 0 <= i < |t| ==> !SameKey(t[i].0, k)
  }

  /** No two entries are equal keys: what a dict keeps. */
  predicate DistinctKeys(t: Tally)
  {
    forall i, j :: 0 <= i < j < |t| ==> !SameKey(t[i].0, t[j].0)
  }

  function Total(t: Tally): nat
  {
    if |t| == 0 then 0 else t[0].1 + Total(t[1..])
  }

  /**
   * `counts[k] = counts.get(k, 0) + 1`: in place, under the key already stored,
   * when an equal key is present; appended otherwise.
   */
  function Bump(t: Tally, k: ConstKey): (r: Tally)
    ensures CountIn(r, k) == CountIn(t, k) + 1
    ensures forall k' :: CountIn(r, k') == CountIn(t, k') + (if SameKey(k', k) then 1 else 0)
    ensures Total(r) == Total(t) + 1
    ensures |r| == if Fresh(t, k) then |t| + 1 else |t|
    ensures forall i :: 0 <= i < |t| ==> r[i].0 == t[i].0
    ensures Fresh(t, k) ==> r[|t|].0 == k
  {
    SameKeyClass();
    if |t| == 0 then [(k, 1)]
    else if SameKey(t[0].0, k) then
      assert ([(t[0].0, t[0].1 + 1)] + t[1..])[1..] == t[1..];
      [(t[0].0, t[0].1 + 1)] + t[1..]
    else
      var rest := Bump(t[1..], k);
      assert ([t[0]] + rest)[1..] == rest;
      [t[0]] + rest
  }

  /** The tally after the satellites `sats`, or `None` if one of them makes Python raise. */
  function TallyOf(sats: seq<Value>): Option<Tally>
  {
    if |sats| == 0 then Some([])
    else match TallyOf(sats[..|sats| - 1])
      case None => None
      case Some(t) =>
        match SatKey(sats[|sats| - 1])
        case None => None
        case Some(k) => Some(Bump(t, k))
  }

  /** Reference: how many satellites have a key equal to `k`. */
  function Occurrences(sats: seq<Value>, k: ConstKey): nat
  {
    if |sats| == 0 then 0
    else
      var last := SatKey(sats[|sats| - 1]);
      Occurrences(sats[..|sats| - 1], k) + (if last.Some? && SameKey(k, last.value) then 1 else 0)
  }

  /** The counting loop. */
  method CountConstellations(sats: seq<Value>) returns (counts: Option<Tally>)
    ensures counts == TallyOf(sats)
  {
    var t: Tally := [];
    var i := 0;
    while i < |sats|
      invariant 0 <= i <= |sats|
      invariant TallyOf(sats[..i]) == Some(t)
    {
      assert sats[..i + 1][..i] == sats[..i];
      var key := SatKey(sats[i]);
      if key.None? {
        TallyFailsOn(sats, i);
        return None;
      }
      t := Bump(t, key.value);
      i := i + 1;
    }
    assert sats[..i] == sats;
    return Some(t);
  }

  /** Once a satellite makes Python raise, the whole tally fails. */
  lemma {:induction false} TallyFailsOn(sats: seq<Value>, i: nat)
    requires i < |sats| && SatKey(sats[i]).None?
    ensures TallyOf(sats).None?
    decreases |sats|
  {
    var n := |sats| - 1;
    if i < n {
      assert sats[..n][i] == sats[i];
      TallyFailsOn(sats[..n], i);
      assert TallyOf(sats[..n]).None?;
    } else {
      assert i == n;
    }
    TallyNoneStep(sats);
  }

  lemma TallyNoneStep(sats: seq<Value>)
    requires |sats| > 0
    requires TallyOf(sats[..|sats| - 1]).None? || SatKey(sats[|sats| - 1]).None?
    ensures TallyOf(sats).None?
  {
  }

  /** `True`, `1` and `1.0` are one key component; the text `"1"` is another. */
  lemma NumbersCompareEqual(i: int)
    ensures PyEqual(Int(i), Num(i as real)) && PyEqual(Bool(true), Int(1)) && PyEqual(Bool(false), Num(0.0))
    ensures !PyEqual(Str("1"), Int(1))
  {
  }

  /** Two satellites with equal keys share one entry, which counts both. */
  lemma EqualKeysMerge(t: Tally, k1: ConstKey, k2: ConstKey)
    requires SameKey(k1, k2)
    ensures |Bump(Bump(t, k1), k2)| == |Bump(t, k1)|
    ensures CountIn(Bump(Bump(t, k1), k2), k1) == CountIn(t, k1) + 2
  {
    var t1 := Bump(t, k1);
    if !Fresh(t, k1) {
      var i :| 0 <= i < |t| && SameKey(t[i].0, k1);
      assert t1[i].0 == t[i].0;
    }
  }

  /** Bumping keeps the keys distinct: an equal key is counted under the entry already there. */
  lemma BumpDistinct(t: Tally, k: ConstKey)
    requires DistinctKeys(t)
    ensures DistinctKeys(Bump(t, k))
  {
    var r := Bump(t, k);
    forall i, j | 0 <= i < j < |r|
      ensures !SameKey(r[i].0, r[j].0)
    {
      assert r[i].0 == t[i].0;
      if j < |t| {
        assert r[j].0 == t[j].0;
      } else {
        assert Fresh(t, k) && r[j].0 == k;
      }
    }
  }

  /** One gauge per distinct key: the tally never holds two equal keys. */
  lemma {:induction false} TallyDistinct(sats: seq<Value>)
    requires TallyOf(sats).Some?
    ensures DistinctKeys(TallyOf(sats).value)
  {
    if |sats| > 0 {
      TallyDistinct(sats[..|sats| - 1]);
      BumpDistinct(TallyOf(sats[..|sats| - 1]).value, SatKey(sats[|sats| - 1]).value);
    }
  }

  /** Each key counts exactly its satellites, and the counts add up to the number of satellites. */
  lemma {:induction false} TallyCounts(sats: seq<Value>, k: ConstKey)
    requires TallyOf(sats).Some?
    ensures CountIn(TallyOf(sats).value, k) == Occurrences(sats, k)
    ensures Total(TallyOf(sats).value) == |sats|
  {
    if |sats| > 0 {
      TallyCounts(sats[..|sats| - 1], k);
    }
  }

  // ---------------------------------------------------------------------------
  // Raw values: `_create_raw_data_metrics`.
  // ---------------------------------------------------------------------------

  /** A metric set from one raw value: a numeric gauge, or an info metric carrying the text. */
  datatype RawMetric = Gauge(key: string, value: real) | Info(key: string, text: string)

  /**
   * The metric one raw value produces. `isinstance(value, (int, float))` is
   * checked first and holds for booleans too, so a boolean sets the numeric
   * gauge to 1 or 0 (the later boolean branch is never reached).
   */
  function RawMetricOf(k: string, v: Value): (r: Option<RawMetric>)
    ensures r.Some? <==> v.Int? || v.Num? || v.Bool? || v.Str?
    ensures r.Some? ==> r.value.key == k
    ensures v.Bool? ==> r == Some(Gauge(k, if v.b then 1.0 else 0.0))
    ensures v.Str? ==> r == Some(Info(k, v.s))
  {
    match v
    case Int(i) => Some(Gauge(k, i as real))
    case Num(x) => Some(Gauge(k, x))
    case Bool(b) => Some(Gauge(k, if b then 1.0 else 0.0))
    case Str(s) => Some(Info(k, s))
    case _ => None
  }

  /** The metrics of the entries `raw`, in order. */
  function RawMetrics(raw: Fields): seq<RawMetric>
  {
    if |raw| == 0 then []
    else
      var last := raw[|raw| - 1];
      RawMetrics(raw[..|raw| - 1]) + (match RawMetricOf(last.0, last.1) case Some(m) => [m] case None => [])
  }

  /** Reference: how many entries hold an int, float, bool or text. */
  function ScalarCount(raw: Fields): nat
  {
    if |raw| == 0 then 0
    else
      var v := raw[|raw| - 1].1;
      ScalarCount(raw[..|raw| - 1]) + (if v.Int? || v.Num? || v.Bool? || v.Str? then 1 else 0)
  }

  /** The loop over `raw_data.items()`: the metrics set, and `metric_count`. */
  method RawDataMetrics(raw: Fields) returns (metrics: seq<RawMetric>, count: nat)
    ensures metrics == RawMetrics(raw) && count == |metrics|
  {
    metrics, count := [], 0;
    if |raw| == 0 {
      return;
    }
    var i := 0;
    while i < |raw|
      invariant 0 <= i <= |raw|
      invariant metrics == RawMetrics(raw[..i]) && count == |metrics|
    {
      assert raw[..i + 1][..i] == raw[..i];
      var m := RawMetricOf(raw[i].0, raw[i].1);
      if m.Some? {
        metrics := metrics + [m.value];
        count := count + 1;
      }
      i := i + 1;
    }
    assert raw[..i] == raw;
  }

  /** Exactly one metric per int, float, bool or text value; the keys follow the entries' order. */
  lemma {:induction false} RawMetricsCount(raw: Fields)
    ensures |RawMetrics(raw)| == ScalarCount(raw)
    ensures forall j :: 0 <= j < |RawMetrics(raw)| ==> RawMetrics(raw)[j].key in Keys(raw)
  {
    if |raw| > 0 {
      var n := |raw| - 1;
      RawMetricsCount(raw[..n]);
      KeysInit(raw);
      var pre := RawMetrics(raw[..n]);
      var tail: seq<RawMetric> := match RawMetricOf(raw[n].0, raw[n].1) case Some(m) => [m] case None => [];
      forall j | 0 <= j < |pre + tail|
        ensures (pre + tail)[j].key in Keys(raw)
      {
        if j < |pre| {
          assert (pre + tail)[j] == pre[j];
          assert Keys(raw[..n]) <= Keys(raw);
        } else {
          assert (pre + tail)[j].key == raw[n].0 == Keys(raw)[n];
        }
      }
    }
  }

  // ---------------------------------------------------------------------------
  // Connectivity: `_test_gateway_connectivity`.
  // ---------------------------------------------------------------------------

  /** The port `_test_gateway_connectivity` connects to: the URL's own, or 443 for https and 80 otherwise when it has none (or 0). */
  function TestPort(scheme: string, port: Option<int>): (r: int)
    ensures port.Some? && port.value != 0 ==> r == port.value
    ensures (port.None? || port.value == 0) ==> (r == 443 <==> scheme == "https") && (r == 80 <==> scheme != "https")
  {
    if port.Some? && port.value != 0 then port.value
    else if scheme == "https" then 443 else 80
  }

  /** A HEAD status that fails the test: 400 and above, except 404 and 405. */
  predicate HeadFails(status: int)
  {
    status >= 400 && status != 404 && status != 405
  }

  /**
   * The test's verdict for a URL with `hostname`, `scheme` and `port`, given
   * what the socket connect returned on each port (`connect`) and the HEAD
   * status (`None` when the request raised).
   */
  function Connectivity(hostname: string, scheme: string, port: Option<int>, connect: int -> int, head: Option<int>): (r: bool)
    ensures r <==> hostname != "" && connect(TestPort(scheme, port)) == 0 && head.Some? &&
                   (head.value < 400 || head.value == 404 || head.value == 405)
  {
    if hostname == "" then false
    else if connect(TestPort(scheme, port)) != 0 then false
    else match head
      case None => false
      case Some(status) => !HeadFails(status)
  }
}
