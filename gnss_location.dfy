/**
 * The three location sections of a `show gnss info` capture: the
 * post-processor's fix ("GNSS_PostProcessor:"), Cisco's own fix
 * ("CiscoGNSS:") and the last location acquired ("Last Location Acquired:").
 * Each has a found flag, a not-available flag and the same numeric fields;
 * the last location adds how and when it was derived.
 */
module GnssLocation {
  import opened Common
  import opened Text
  import opened Json
  import opened Scan

  datatype Source = PostProcessor | CiscoGnss | LastLocation

  /** The heading that opens the section. */
  function Marker(src: Source): string
  {
    match src
    case PostProcessor => "GNSS_PostProcessor:"
    case CiscoGnss => "CiscoGNSS:"
    case LastLocation => "Last Location Acquired:"
  }

  /** The flag that records that the heading was found. */
  function FoundKey(src: Source): (r: string)
    ensures r != "not_available"
  {
    match src
    case PostProcessor => "gnss_pp_parser_found"
    case CiscoGnss => "cisco_gnss_parser_found"
    case LastLocation => "last_location_parser_found"
  }

  const FixKeys: seq<string> := [
    "latitude", "longitude", "horacc", "horacc_hdop", "uncertainty_ellipse_major_axis",
    "uncertainty_ellipse_minor_axis", "uncertainty_ellipse_orientation",
    "altitude_msl", "altitude_hae", "vertacc"]

  const DerivationKeys: seq<string> := ["derivation_type", "derivation_time"]

  const EllipseKeys: seq<string> := ["uncertainty_ellipse_major_axis", "uncertainty_ellipse_minor_axis",
                                     "uncertainty_ellipse_orientation"]

  function LocationKeys(src: Source): seq<string>
  {
    [FoundKey(src), "not_available"] + FixKeys + (if src == LastLocation then DerivationKeys else [])
  }

  /** A section before extraction: both flags false, every other field `None`. */
  function DefaultLocation(src: Source): (r: Fields)
    ensures Keys(r) == LocationKeys(src)
    ensures Get(r, FoundKey(src)) == Some(Bool(false))
    ensures Get(r, "not_available") == Some(Bool(false))
    ensures forall k :: k in LocationKeys(src) && k != FoundKey(src) && k != "not_available" ==> Get(r, k) == Some(Null)
  {
    var keys := LocationKeys(src);
    assert keys[0] == FoundKey(src) && keys[1] == "not_available";
    Put(Put(NullFields(keys), FoundKey(src), Bool(false)), "not_available", Bool(false))
  }

  /** One entry of the single-number field list: its key, its label and the characters of the number. */
  datatype FixField = FixField(key: string, tag: string, cls: CharClass)

  const FixFields: seq<FixField> := [
    FixField("latitude", "Latitude:", DigitDotDash),
    FixField("longitude", "Longitude:", DigitDotDash),
    FixField("altitude_msl", "Altitude MSL:", DigitDot),
    FixField("altitude_hae", "HAE:", DigitDot),
    FixField("vertacc", "VertAcc:", DigitDot)]

  /** `float()` of the first match of one field's pattern, or nothing when it is missing or `float()` rejects it. */
  function FieldValue(section: string, f: FixField): (r: Option<Value>)
    ensures r.Some? ==> r.value.Num?
  {
    match Search(section, (t: string, k: nat) => LabelRun(t, k, f.tag, f.cls, true))
    case None => None
    case Some(g) =>
      match ParseFloat(g)
      case None => None
      case Some(x) => Some(Num(x))
  }

  /** The assignment one field makes. */
  function FieldWrite(section: string, f: FixField): (r: Fields)
    ensures |r| <= 1
    ensures |r| == 1 ==> r[0].0 == f.key && r[0].1.Num?
  {
    match FieldValue(section, f)
    case None => []
    case Some(v) => [(f.key, v)]
  }

  /** The assignments of the field list, in list order. */
  function FieldWrites(section: string, fs: seq<FixField>): (r: Fields)
    ensures Nums(r)
  {
    if |fs| == 0 then []
    else
      var prev := FieldWrites(section, fs[..|fs| - 1]);
      var w := FieldWrite(section, fs[|fs| - 1]);
      assert forall i :: 0 <= i < |prev + w| ==> (prev + w)[i] == if i < |prev| then prev[i] else w[i - |prev|];
      prev + w
  }

  /** Every key the field list assigns is the key of one of its fields. */
  lemma {:induction false} FieldWritesKeys(section: string, fs: seq<FixField>, P: string -> bool)
    requires forall i :: 0 <= i < |fs| ==> P(fs[i].key)
    ensures forall i :: 0 <= i < |FieldWrites(section, fs)| ==> P(FieldWrites(section, fs)[i].0)
    decreases |fs|
  {
    if |fs| > 0 {
      var n := |fs| - 1;
      FieldWritesKeys(section, fs[..n], P);
      var prev, w := FieldWrites(section, fs[..n]), FieldWrite(section, fs[n]);
      assert FieldWrites(section, fs) == prev + w;
      assert forall i :: 0 <= i < |prev + w| ==> (prev + w)[i] == if i < |prev| then prev[i] else w[i - |prev|];
    }
  }

  lemma FieldWritesStep(section: string, fs: seq<FixField>, i: nat)
    requires i < |fs|
    ensures FieldWrites(section, fs[..i + 1]) == FieldWrites(section, fs[..i]) + FieldWrite(section, fs[i])
  {
    assert fs[..i + 1][..i] == fs[..i];
  }

  /**
   * The assignments of a `try` block that stores `float()` of each capture in
   * turn: they stop at the first capture `float()` rejects, keeping the
   * assignments made before it.
   */
  function FloatPrefix(keys: seq<string>, gs: seq<string>): (r: Fields)
    requires |keys| == |gs|
    ensures |r| <= |gs| && Keys(r) == keys[..|r|]
    ensures forall i :: 0 <= i < |r| ==> ParseFloat(gs[i]).Some? && r[i].1 == Num(ParseFloat(gs[i]).value)
    ensures |r| < |gs| ==> ParseFloat(gs[|r|]).None?
  {
    var ps := seq(|gs|, g requires 0 <= g < |gs| => ParseFloat(gs[g]));
    assert forall g :: 0 <= g < |gs| ==> ps[g] == ParseFloat(gs[g]);
    PresentPrefix(keys, ps)
  }

  /** The numbers up to the first missing one, each under its key. */
  function PresentPrefix(keys: seq<string>, ps: seq<Option<real>>): (r: Fields)
    requires |keys| == |ps|
    ensures |r| <= |ps| && Keys(r) == keys[..|r|]
    ensures forall i :: 0 <= i < |r| ==> ps[i].Some? && r[i].1 == Num(ps[i].value)
    ensures |r| < |ps| ==> ps[|r|].None?
  {
    if |ps| == 0 then []
    else match ps[0]
      case None => []
      case Some(x) =>
        var rest := PresentPrefix(keys[1..], ps[1..]);
        KeysCons((keys[0], Num(x)), rest);
        [(keys[0], Num(x))] + rest
  }

  /** The assignments of a multi-number group: none when its pattern does not match. */
  function GroupAssign(keys: seq<string>, captures: Option<seq<string>>): (r: Fields)
    requires captures.Some? ==> |captures.value| == |keys|
    ensures |r| <= |keys| && Keys(r) == keys[..|r|]
    ensures forall i :: 0 <= i < |r| ==> r[i].0 == keys[i] && r[i].1.Num?
  {
    match captures
    case None => []
    case Some(gs) => FloatPrefix(keys, gs)
  }

  /** `HorAcc:\s*([\d\.]+)\s+hDOP:\s*([\d\.]+)`. */
  function HdopCaptures(section: string): (r: Option<seq<string>>)
    ensures r.Some? ==> |r.value| == 2
  {
    Search(section, (t: string, k: nat) => NumberGroups(t, k, ["HorAcc:", "hDOP:"], true, true))
  }

  /** `Major axis:\s*([\d\.]+)\s+Minor axis:\s*([\d\.]+)\s+Orientation:\s*([\d\.]+)`. */
  function EllipseCaptures(section: string): (r: Option<seq<string>>)
    ensures r.Some? ==> |r.value| == 3
  {
    Search(section, (t: string, k: nat) => NumberGroups(t, k, ["Major axis:", "Minor axis:", "Orientation:"], true, true))
  }

  const HdopKeys: seq<string> := ["horacc", "horacc_hdop"]

  /** The horizontal accuracy and its hDOP, assigned in that order inside one `try`. */
  function HdopWrites(section: string): (r: Fields)
    ensures HdopRun(r) && Nums(r)
  {
    GroupAssign(HdopKeys, HdopCaptures(section))
  }

  /** The three ellipse numbers, assigned in order inside one `try`. */
  function EllipseWrites(section: string): (r: Fields)
    ensures EllipseRun(r) && Nums(r)
  {
    GroupAssign(EllipseKeys, EllipseCaptures(section))
  }

  /** A prefix of the hDOP group's keys, in order. */
  predicate HdopRun(r: Fields)
  {
    |r| <= 2 && (|r| > 0 ==> r[0].0 == "horacc") && (|r| > 1 ==> r[1].0 == "horacc_hdop")
  }

  /** A prefix of the ellipse group's keys, in order. */
  predicate EllipseRun(r: Fields)
  {
    |r| <= 3 && (|r| > 0 ==> r[0].0 == "uncertainty_ellipse_major_axis") &&
    (|r| > 1 ==> r[1].0 == "uncertainty_ellipse_minor_axis") &&
    (|r| > 2 ==> r[2].0 == "uncertainty_ellipse_orientation")
  }

  predicate Nums(r: Fields)
  {
    forall i :: 0 <= i < |r| ==> r[i].1.Num?
  }

  /** The keys of the two groups. */
  predicate GroupKey(k: string)
  {
    k == "horacc" || k == "horacc_hdop" || k == "uncertainty_ellipse_major_axis" ||
    k == "uncertainty_ellipse_minor_axis" || k == "uncertainty_ellipse_orientation"
  }

  /** The keys of the single-number fields. */
  predicate FixFieldKey(k: string)
  {
    k == "latitude" || k == "longitude" || k == "altitude_msl" || k == "altitude_hae" || k == "vertacc"
  }

  lemma FixFieldKeysAre()
    ensures forall i :: 0 <= i < |FixFields| ==> FixFieldKey(FixFields[i].key)
  {
  }

  /** The derivation fields, which only the last-location section has. */
  function Derivation(src: Source, section: string): (r: Fields)
    ensures forall i :: 0 <= i < |r| ==> IsDerivationKey(r[i].0) && r[i].1.Str?
  {
    if src == LastLocation then
      var t, u := DerivationTypeWrite(section), DerivationTimeWrite(section);
      DerivationAppend(t, u);
      t + u
    else []
  }

  lemma DerivationAppend(t: Fields, u: Fields)
    requires forall i :: 0 <= i < |t| ==> IsDerivationKey(t[i].0) && t[i].1.Str?
    requires forall i :: 0 <= i < |u| ==> IsDerivationKey(u[i].0) && u[i].1.Str?
    ensures forall i :: 0 <= i < |t + u| ==> IsDerivationKey((t + u)[i].0) && (t + u)[i].1.Str?
  {
    assert forall i :: 0 <= i < |t + u| ==> (t + u)[i] == if i < |t| then t[i] else u[i - |t|];
  }

  /** How the last location was derived, stripped, when present. */
  function DerivationTypeWrite(section: string): (r: Fields)
    ensures |r| <= 1 && forall i :: 0 <= i < |r| ==> r[i].0 == "derivation_type" && r[i].1.Str?
  {
    match Search(section, (t: string, k: nat) => LabelRest(t, k, "Derivation Type:", true))
    case None => []
    case Some(g) => [("derivation_type", Str(Strip(g)))]
  }

  /** When the last location was derived, stripped, when present. */
  function DerivationTimeWrite(section: string): (r: Fields)
    ensures |r| <= 1 && forall i :: 0 <= i < |r| ==> r[i].0 == "derivation_time" && r[i].1.Str?
  {
    match Search(section, (t: string, k: nat) => LabelTimestamp(t, k, "Time:", true))
    case None => []
    case Some(g) => [("derivation_time", Str(Strip(g)))]
  }

  /** `marker\s*N/A` (any case) at offset `i`. */
  function MarkerNotAvailable(s: string, i: nat, marker: string): Option<nat>
  {
    if AtCI(s, i, marker) && AtCI(s, SkipSpace(s, i + |marker|), "N/A") then Some(i) else None
  }

  predicate NotAvailable(src: Source, content: string)
  {
    Search(content, (t: string, k: nat) => MarkerNotAvailable(t, k, Marker(src))).Some?
  }

  /** The section: from its heading up to the first blank line, or to the end. */
  function SectionFrom(content: string, start: nat): string
    requires start <= |content|
  {
    var rest := content[start..];
    match Find(rest, "\n\n")
    case Some(e) => rest[..e]
    case None => rest
  }

  /** Every assignment an extractor makes to its section's fields, in order: numbers, and text only for the derivation. */
  function LocationWrites(src: Source, section: string): (r: Fields)
    ensures Typed(r)
  {
    LocationWritesTyped(src, section);
    FieldWrites(section, FixFields)
    + HdopWrites(section)
    + EllipseWrites(section)
    + Derivation(src, section)
  }

  /**
   * A location section as its extractor fills it: the found flag when the
   * heading occurs anywhere (any case); the not-available flag alone when
   * `heading N/A` occurs; otherwise every assignment made from the text
   * between the heading and the next blank line.
   */
  function LocationMetrics(src: Source, content: string): (r: Fields)
    ensures Keys(r) == LocationKeys(src)
  {
    var found := FindCI(content, Marker(src));
    LocationFrom(src, found.Some?, found.Some? && NotAvailable(src, content),
                 if found.Some? then SectionFrom(content, found.value) else "")
  }

  /** The default section with its found flag set. */
  function Found(src: Source): (r: Fields)
    ensures Keys(r) == LocationKeys(src)
  {
    Put(DefaultLocation(src), FoundKey(src), Bool(true))
  }

  /**
   * A location section once it is known whether its heading was found,
   * whether it was marked not available, and what its text is.
   */
  function LocationFrom(src: Source, found: bool, na: bool, section: string): (r: Fields)
    ensures Keys(r) == LocationKeys(src)
  {
    if !found then DefaultLocation(src)
    else if na then Put(Found(src), "not_available", Bool(true))
    else Extracted(src, Found(src), section)
  }

  /** A section with its found flag set, after every assignment made from its text. */
  function Extracted(src: Source, d: Fields, section: string): (r: Fields)
    requires Keys(d) == LocationKeys(src)
    ensures Keys(r) == LocationKeys(src)
  {
    LocationWritesKeys(src, section);
    AssignableKeep(src, d, LocationWrites(src, section));
    PutAll(d, LocationWrites(src, section))
  }

  /** A field an extractor may assign: one of its section's, and not a flag. */
  predicate Assignable(src: Source, k: string)
  {
    k in LocationKeys(src) && k != FoundKey(src) && k != "not_available"
  }

  predicate AllAssignable(src: Source, w: Fields)
  {
    forall i :: 0 <= i < |w| ==> Assignable(src, w[i].0)
  }

  /** The extractors assign only fields of their own section, and never a flag. */
  lemma LocationWritesKeys(src: Source, section: string)
    ensures AllAssignable(src, LocationWrites(src, section))
  {
    var a := FieldWrites(section, FixFields);
    var b := HdopWrites(section);
    var c := EllipseWrites(section);
    var d := Derivation(src, section);
    FieldWritesAssignable(src, section);
    HdopAssignable(src, b);
    EllipseAssignable(src, c);
    if src == LastLocation {
      DerivationAssignable(section);
    }
    assert AllAssignable(src, d);
    AssignableAppend(src, a, b);
    AssignableAppend(src, a + b, c);
    AssignableAppend(src, a + b + c, d);
  }

  lemma AssignableAppend(src: Source, a: Fields, b: Fields)
    requires AllAssignable(src, a) && AllAssignable(src, b)
    ensures AllAssignable(src, a + b)
  {
    assert forall i :: 0 <= i < |a + b| ==> (a + b)[i] == if i < |a| then a[i] else b[i - |a|];
  }

  lemma FieldWritesAssignable(src: Source, section: string)
    ensures AllAssignable(src, FieldWrites(section, FixFields))
  {
    FixFieldKeysAre();
    FieldWritesKeys(section, FixFields, FixFieldKey);
    FixKeysAssignable(src);
  }

  lemma FixKeysAssignable(src: Source)
    ensures forall k :: FixFieldKey(k) ==> Assignable(src, k)
  {
    assert LocationKeys(src)[2] == "latitude" && LocationKeys(src)[3] == "longitude";
    assert LocationKeys(src)[9] == "altitude_msl" && LocationKeys(src)[10] == "altitude_hae";
    assert LocationKeys(src)[11] == "vertacc";
  }
  lemma FixFieldKeys(src: Source, i: nat)
    requires i < |FixFields|
    ensures Assignable(src, FixFields[i].key)
  {
  }

  lemma HdopAssignable(src: Source, b: Fields)
    requires HdopRun(b)
    ensures AllAssignable(src, b)
  {
    assert LocationKeys(src)[4] == "horacc" && LocationKeys(src)[5] == "horacc_hdop";
  }

  lemma EllipseAssignable(src: Source, c: Fields)
    requires EllipseRun(c)
    ensures AllAssignable(src, c)
  {
    assert LocationKeys(src)[6] == "uncertainty_ellipse_major_axis";
    assert LocationKeys(src)[7] == "uncertainty_ellipse_minor_axis";
    assert LocationKeys(src)[8] == "uncertainty_ellipse_orientation";
  }

  lemma DerivationAssignable(section: string)
    ensures AllAssignable(LastLocation, Derivation(LastLocation, section))
  {
    assert Assignable(LastLocation, "derivation_type");
    assert Assignable(LastLocation, "derivation_time");
  }

  /** Assignments to a section's own fields leave its schema as it was. */
  lemma AssignableKeep(src: Source, d: Fields, w: Fields)
    requires Keys(d) == LocationKeys(src) && AllAssignable(src, w)
    ensures Keys(PutAll(d, w)) == LocationKeys(src)
  {
    PutAllFacts(d, w);
    forall k | k in Keys(w) ensures k in Keys(d) {
      var i :| 0 <= i < |w| && Keys(w)[i] == k;
    }
    NewKeysNone(Keys(w), Keys(d));
  }

  predicate IsDerivationKey(k: string) { k == "derivation_type" || k == "derivation_time" }

  /** Numbers, and text only for the derivation fields. */
  predicate Typed(w: Fields)
  {
    forall i :: 0 <= i < |w| ==> w[i].1.Num? || (w[i].1.Str? && IsDerivationKey(w[i].0))
  }

  lemma TypedAppend(a: Fields, b: Fields)
    requires Typed(a) && Typed(b)
    ensures Typed(a + b)
  {
    assert forall i :: 0 <= i < |a + b| ==> (a + b)[i] == if i < |a| then a[i] else b[i - |a|];
  }

  lemma LocationWritesTyped(src: Source, section: string)
    ensures Typed(FieldWrites(section, FixFields)
                  + HdopWrites(section)
                  + EllipseWrites(section)
                  + Derivation(src, section))
  {
    var a := FieldWrites(section, FixFields);
    var b := HdopWrites(section);
    var c := EllipseWrites(section);
    var d := Derivation(src, section);
    TypedAppend(a, b);
    TypedAppend(a + b, c);
    TypedAppend(a + b + c, d);
  }

  /** The value the last assignment to `k` stores is one of the assignments. */
  lemma {:induction false} LastGetMember(w: Fields, k: string)
    ensures LastGet(w, k).Some? ==> exists i :: 0 <= i < |w| && w[i] == (k, LastGet(w, k).value)
    decreases |w|
  {
    if |w| > 0 && w[|w| - 1].0 != k {
      LastGetMember(w[..|w| - 1], k);
      if LastGet(w, k).Some? {
        var i :| 0 <= i < |w| - 1 && w[..|w| - 1][i] == (k, LastGet(w, k).value);
        assert w[i] == w[..|w| - 1][i];
      }
    }
  }

  /** Each field of an extracted section holds its default, or the value its last assignment stored. */
  lemma ExtractedGet(src: Source, d: Fields, section: string, k: string)
    requires Keys(d) == LocationKeys(src)
    ensures Get(Extracted(src, d, section), k) ==
              if k in Keys(LocationWrites(src, section)) then LastGet(LocationWrites(src, section), k) else Get(d, k)
  {
    PutAllFacts(d, LocationWrites(src, section));
  }

  /** The found flag holds `found` and the not-available flag `na`. */
  ghost predicate FlagsAre(r: Fields, src: Source, found: bool, na: bool)
  {
    FlagFacts(r, src, found, na) == true
  }

  /** One atom for the prover: the conjuncts above. */
  ghost function FlagFacts(r: Fields, src: Source, found: bool, na: bool): bool
  {
    Get(r, FoundKey(src)) == Some(Bool(found)) && Get(r, "not_available") == Some(Bool(na))
  }

  /** Every field but the two flags holds `None`. */
  ghost predicate NullRest(r: Fields, src: Source)
  {
    NullRestFacts(r, src) == true
  }

  ghost function NullRestFacts(r: Fields, src: Source): bool
  {
    forall k :: Assignable(src, k) ==> Get(r, k) == Some(Null)
  }

  /** The three dicts a section can be before its text is read: default, found, found but not available. */
  lemma DefaultFlags(src: Source)
    ensures var d0, d1 := DefaultLocation(src), Found(src);
            FlagsAre(d0, src, false, false) && NullRest(d0, src) &&
            FlagsAre(d1, src, true, false) && NullRest(d1, src) &&
            FlagsAre(Put(d1, "not_available", Bool(true)), src, true, true) &&
            NullRest(Put(d1, "not_available", Bool(true)), src)
  {
    DefaultIsClear(src);
    FoundIsSet(src);
    NotAvailableIsSet(src);
  }

  lemma DefaultIsClear(src: Source)
    ensures FlagsAre(DefaultLocation(src), src, false, false) && NullRest(DefaultLocation(src), src)
  {
  }

  lemma FoundIsSet(src: Source)
    ensures FlagsAre(Found(src), src, true, false) && NullRest(Found(src), src)
  {
    DefaultIsClear(src);
  }

  lemma NotAvailableIsSet(src: Source)
    ensures var r := Put(Found(src), "not_available", Bool(true));
            FlagsAre(r, src, true, true) && NullRest(r, src)
  {
    FoundIsSet(src);
  }

  /** The assignments made from a section's text never touch its flags. */
  lemma ExtractedFlags(src: Source, d: Fields, section: string)
    requires Keys(d) == LocationKeys(src)
    ensures FlagsAre(d, src, true, false) ==> FlagsAre(Extracted(src, d, section), src, true, false)
  {
    var w := LocationWrites(src, section);
    LocationWritesKeys(src, section);
    PutAllFacts(d, w);
    FlagNotAssigned(src, w, FoundKey(src));
    FlagNotAssigned(src, w, "not_available");
  }

  lemma FlagNotAssigned(src: Source, w: Fields, k: string)
    requires AllAssignable(src, w) && (k == FoundKey(src) || k == "not_available")
    ensures k !in Keys(w)
  {
  }

  /**
   * The flags of a location section: found when its heading occurs (any
   * case), not available when `heading N/A` occurs as well.
   */
  lemma LocationFlags(src: Source, content: string)
    ensures var found := FindCI(content, Marker(src)).Some?;
            FlagsAre(LocationMetrics(src, content), src, found, found && NotAvailable(src, content))
  {
    var found := FindCI(content, Marker(src));
    FlagsFrom(src, found.Some?, found.Some? && NotAvailable(src, content),
              if found.Some? then SectionFrom(content, found.value) else "");
  }

  /** `LocationFlags` for a section whose heading and marker were looked up already. */
  lemma FlagsFrom(src: Source, found: bool, na: bool, section: string)
    ensures FlagsAre(LocationFrom(src, found, na, section), src, found, found && na)
  {
    DefaultFlags(src);
    if found && !na {
      ExtractedFlags(src, Found(src), section);
    }
  }

  /** A section that is missing or not available holds no value besides its flags. */
  lemma LocationEmpty(src: Source, content: string)
    ensures FindCI(content, Marker(src)).None? || NotAvailable(src, content) ==>
              NullRest(LocationMetrics(src, content), src)
  {
    var found := FindCI(content, Marker(src));
    EmptyFrom(src, found.Some?, found.Some? && NotAvailable(src, content),
              if found.Some? then SectionFrom(content, found.value) else "");
  }

  lemma EmptyFrom(src: Source, found: bool, na: bool, section: string)
    ensures !found || na ==> NullRest(LocationFrom(src, found, na, section), src)
  {
    DefaultFlags(src);
  }

  /**
   * Every numeric field of a location section holds `None` or a number: a
   * value `float()` rejects is never stored. The derivation fields hold `None`
   * or text.
   */
  lemma LocationValuesTyped(src: Source, content: string, k: string)
    requires Assignable(src, k)
    ensures var v := Get(LocationMetrics(src, content), k).value;
            v == Null || v.Num? || (v.Str? && IsDerivationKey(k))
  {
    var found := FindCI(content, Marker(src));
    TypedFrom(src, found.Some?, found.Some? && NotAvailable(src, content),
              if found.Some? then SectionFrom(content, found.value) else "", k);
  }

  lemma TypedFrom(src: Source, found: bool, na: bool, section: string, k: string)
    requires Assignable(src, k)
    ensures var v := Get(LocationFrom(src, found, na, section), k).value;
            v == Null || v.Num? || (v.Str? && IsDerivationKey(k))
  {
    EmptyFrom(src, found, na, section);
    if found && !na {
      DefaultFlags(src);
      ExtractedTyped(src, Found(src), section, k);
    }
  }

  lemma ExtractedTyped(src: Source, d: Fields, section: string, k: string)
    requires Keys(d) == LocationKeys(src) && Assignable(src, k) && NullRest(d, src)
    ensures var v := Get(Extracted(src, d, section), k).value;
            v == Null || v.Num? || (v.Str? && IsDerivationKey(k))
  {
    ExtractedGet(src, d, section, k);
    LastGetMember(LocationWrites(src, section), k);
  }

  /**
   * The consecutive fields of a group: the hDOP follows the horizontal
   * accuracy, the minor axis the major one, the orientation the minor axis.
   */
  predicate GroupStep(k': string, k: string)
  {
    (k' == "horacc" && k == "horacc_hdop") ||
    (k' == "uncertainty_ellipse_major_axis" && k == "uncertainty_ellipse_minor_axis") ||
    (k' == "uncertainty_ellipse_minor_axis" && k == "uncertainty_ellipse_orientation")
  }

  /** `k` holds a number only when `k'` does. */
  predicate NumOnlyAfter(r: Fields, k': string, k: string)
  {
    Get(r, k).Some? && Get(r, k).value.Num? ==> Get(r, k').Some? && Get(r, k').value.Num?
  }

  lemma GroupStepKeys(src: Source, k': string, k: string)
    requires GroupStep(k', k)
    ensures Assignable(src, k) && Assignable(src, k') && !IsDerivationKey(k') && GroupKey(k)
  {
    assert LocationKeys(src)[4] == "horacc" && LocationKeys(src)[5] == "horacc_hdop";
    assert LocationKeys(src)[6] == "uncertainty_ellipse_major_axis";
    assert LocationKeys(src)[7] == "uncertainty_ellipse_minor_axis";
    assert LocationKeys(src)[8] == "uncertainty_ellipse_orientation";
  }

  /**
   * The assignments of a group stop at the first number `float()` rejects,
   * so a field of a group holds a number only when the field before it in
   * the group does: an hDOP only with its horizontal accuracy, an ellipse
   * orientation only with the minor axis, a minor axis only with the major one.
   */
  lemma GroupPrefix(src: Source, content: string, k': string, k: string)
    requires GroupStep(k', k)
    ensures NumOnlyAfter(LocationMetrics(src, content), k', k)
  {
    var found := FindCI(content, Marker(src));
    PrefixFrom(src, found.Some?, found.Some? && NotAvailable(src, content),
               if found.Some? then SectionFrom(content, found.value) else "", k', k);
  }

  lemma PrefixFrom(src: Source, found: bool, na: bool, section: string, k': string, k: string)
    requires GroupStep(k', k)
    ensures NumOnlyAfter(LocationFrom(src, found, na, section), k', k)
  {
    GroupStepKeys(src, k', k);
    EmptyFrom(src, found, na, section);
    if found && !na {
      DefaultFlags(src);
      GroupPrefixIn(src, Found(src), section, k', k);
    }
  }

  /** `GroupPrefix` for the fields extracted from one section. */
  lemma GroupPrefixIn(src: Source, d: Fields, section: string, k': string, k: string)
    ensures Keys(d) == LocationKeys(src) && NullRest(d, src) && GroupStep(k', k) ==>
              NumOnlyAfter(Extracted(src, d, section), k', k)
  {
    if Keys(d) == LocationKeys(src) && NullRest(d, src) && GroupStep(k', k) {
      GroupStepKeys(src, k', k);
      GroupOrderIn(src, section, k', k);
      PrefixKept(d, LocationWrites(src, section), k, k');
    }
  }

  /** A later key of a group is assigned only when the one before it is. */
  lemma GroupOrderIn(src: Source, section: string, k': string, k: string)
    requires GroupStep(k', k)
    ensures k in Keys(LocationWrites(src, section)) ==> k' in Keys(LocationWrites(src, section))
  {
    var a := FieldWrites(section, FixFields);
    assert GroupKey(k);
    GroupNotFix(section, k);
    GroupOrder(a, HdopWrites(section), EllipseWrites(section), Derivation(src, section), k', k);
  }

  lemma GroupNotFix(section: string, k: string)
    requires GroupKey(k)
    ensures k !in Keys(FieldWrites(section, FixFields))
  {
    FixFieldKeysAre();
    FieldWritesKeys(section, FixFields, FixFieldKey);
    NotWritten(FieldWrites(section, FixFields), k);
  }

  lemma GroupOrder(a: Fields, b: Fields, c: Fields, d: Fields, k': string, k: string)
    ensures (GroupStep(k', k) && k !in Keys(a) && HdopRun(b) && EllipseRun(c) &&
             (forall i :: 0 <= i < |d| ==> IsDerivationKey(d[i].0))) ==>
              (k in Keys(a + b + c + d) ==> k' in Keys(a + b + c + d))
  {
    KeysAppend(a, b);
    KeysAppend(a + b, c);
    KeysAppend(a + b + c, d);
    HdopOrder(b, k', k);
    EllipseOrder(c, k', k);
  }

  lemma HdopOrder(b: Fields, k': string, k: string)
    ensures (GroupStep(k', k) && HdopRun(b) && k in Keys(b)) ==> k' in Keys(b)
  {
    if GroupStep(k', k) && HdopRun(b) && k in Keys(b) {
      assert Keys(b)[0] == k';
    }
  }

  lemma EllipseOrder(c: Fields, k': string, k: string)
    ensures (GroupStep(k', k) && EllipseRun(c) && k in Keys(c)) ==> k' in Keys(c)
  {
    if GroupStep(k', k) && EllipseRun(c) && k in Keys(c) {
      var i :| 0 <= i < |c| && Keys(c)[i] == k;
      assert Keys(c)[i - 1] == k';
    }
  }

  /** Assignments of numbers over `None` defaults keep "`k` is a number only if `k'` is". */
  lemma PrefixKept(d: Fields, w: Fields, k: string, k': string)
    ensures (Get(d, k) == Some(Null) && Get(d, k').Some? && Typed(w) && !IsDerivationKey(k') &&
             (k in Keys(w) ==> k' in Keys(w))) ==> NumOnlyAfter(PutAll(d, w), k', k)
  {
    PutAllFacts(d, w);
    LastGetMember(w, k');
  }

  /** When the field list's keys are distinct, no later entry overwrites an entry's key. */
  lemma FieldWritesLast(section: string, fs: seq<FixField>, j: nat)
    requires j < |fs|
    requires forall a, b :: 0 <= a < b < |fs| ==> fs[a].key != fs[b].key
    ensures LastGet(FieldWrites(section, fs), fs[j].key) == FieldValue(section, fs[j])
  {
    var k := fs[j].key;
    var a, b := fs[..j + 1], fs[j + 1..];
    assert fs == a + b;
    FieldWritesAppend(section, a, b);
    FieldWritesUnset(section, b, k);
    FieldWritesUnset(section, fs[..j], k);
    FieldWritesGet(section, fs, j, k);
    LastGetConcat(FieldWrites(section, a), FieldWrites(section, b), k);
  }

  /** The assignments of two field lists one after the other. */
  lemma {:induction false} FieldWritesAppend(section: string, a: seq<FixField>, b: seq<FixField>)
    ensures FieldWrites(section, a + b) == FieldWrites(section, a) + FieldWrites(section, b)
    decreases |b|
  {
    if |b| == 0 {
      assert a + b == a;
    } else {
      var n := |b| - 1;
      assert (a + b)[..|a + b| - 1] == a + b[..n];
      FieldWritesAppend(section, a, b[..n]);
    }
  }

  /** One more field of the list: its key now holds its number, if any. */
  lemma FieldWritesGet(section: string, fs: seq<FixField>, n: nat, k: string)
    requires n < |fs|
    ensures LastGet(FieldWrites(section, fs[..n + 1]), k) ==
              if k == fs[n].key && FieldValue(section, fs[n]).Some? then FieldValue(section, fs[n])
              else LastGet(FieldWrites(section, fs[..n]), k)
  {
    FieldWritesStep(section, fs, n);
    LastGetConcat(FieldWrites(section, fs[..n]), FieldWrite(section, fs[n]), k);
  }

  /** A key no field of the list names is never assigned. */
  lemma FieldWritesUnset(section: string, fs: seq<FixField>, k: string)
    requires forall a :: 0 <= a < |fs| ==> fs[a].key != k
    ensures LastGet(FieldWrites(section, fs), k).None?
  {
    FieldWritesKeys(section, fs, (x: string) => x != k);
    NotWritten(FieldWrites(section, fs), k);
  }

  /**
   * Each single-number field of an extracted section holds `float()` of the
   * first match of its pattern in the section, or `None` when it has no match
   * or `float()` rejects it.
   */
  lemma FixFieldValue(src: Source, content: string, j: nat)
    requires j < |FixFields|
    requires FindCI(content, Marker(src)).Some? && !NotAvailable(src, content)
    ensures var section := SectionFrom(content, FindCI(content, Marker(src)).value);
            Get(LocationMetrics(src, content), FixFields[j].key) ==
              Some(match FieldValue(section, FixFields[j]) case None => Null case Some(v) => v)
  {
    FixFrom(src, SectionFrom(content, FindCI(content, Marker(src)).value), j);
  }

  lemma FixFrom(src: Source, section: string, j: nat)
    requires j < |FixFields|
    ensures Get(LocationFrom(src, true, false, section), FixFields[j].key) ==
              Some(match FieldValue(section, FixFields[j]) case None => Null case Some(v) => v)
  {
    FixFieldKeys(src, j);
    ExtractedFixField(src, Found(src), section, j);
  }

  lemma ExtractedFixField(src: Source, d: Fields, section: string, j: nat)
    requires j < |FixFields| && Keys(d) == LocationKeys(src) && Get(d, FixFields[j].key) == Some(Null)
    ensures Get(Extracted(src, d, section), FixFields[j].key) ==
              Some(match FieldValue(section, FixFields[j]) case None => Null case Some(v) => v)
  {
    var k := FixFields[j].key;
    var a := FieldWrites(section, FixFields);
    ExtractedGet(src, d, section, k);
    FixKeysDistinct();
    FieldWritesLast(section, FixFields, j);
    FixFieldNotGroup(j);
    LastGetParts(a, HdopWrites(section), EllipseWrites(section), Derivation(src, section), k);
  }

  lemma LastGetParts(a: Fields, b: Fields, c: Fields, d: Fields, k: string)
    requires HdopRun(b) && EllipseRun(c) && !GroupKey(k)
    requires forall i :: 0 <= i < |d| ==> IsDerivationKey(d[i].0)
    requires !IsDerivationKey(k)
    ensures LastGet(a + b + c + d, k) == LastGet(a, k)
  {
    assert forall i :: 0 <= i < |b| ==> b[i].0 != k;
    assert forall i :: 0 <= i < |c| ==> c[i].0 != k;
    LastGetUntouched(a, b, k);
    LastGetUntouched(a + b, c, k);
    LastGetUntouched(a + b + c, d, k);
  }

  lemma FixFieldNotGroup(j: nat)
    requires j < |FixFields|
    ensures !GroupKey(FixFields[j].key) && !IsDerivationKey(FixFields[j].key)
  {
    FixFieldKeysAre();
  }

  lemma FixKeysDistinct()
    ensures forall a, b :: 0 <= a < b < |FixFields| ==> FixFields[a].key != FixFields[b].key
  {
    assert FixFields[2].key[9] == 'm' && FixFields[3].key[9] == 'h';
  }

  /** The loop over the single-number field list: each field that matches and converts is assigned. */
  method ApplyFixFields(section: string, fs: seq<FixField>, init: Fields) returns (m: Fields)
    ensures m == PutAll(init, FieldWrites(section, fs))
  {
    m := init;
    var i := 0;
    while i < |fs|
      invariant 0 <= i <= |fs|
      invariant m == PutAll(init, FieldWrites(section, fs[..i]))
    {
      ghost var done := FieldWrites(section, fs[..i]);
      FieldWritesStep(section, fs, i);
      var value := FieldValue(section, fs[i]);
      if value.Some? {
        assert FieldWrite(section, fs[i]) == [(fs[i].key, value.value)];
        PutAllSnoc(init, done, fs[i].key, value.value);
        m := Put(m, fs[i].key, value.value);
      } else {
        assert done + FieldWrite(section, fs[i]) == done;
      }
      i := i + 1;
    }
    assert fs[..i] == fs;
  }

  /**
   * `_extract_gnss_postprocessor_metrics`, `_extract_cisco_gnss_metrics` and
   * `_extract_last_location_acquired_metrics`: the default section, its found
   * and not-available flags, then the field list, the two groups and, for the
   * last location, the derivation fields, assigned in that order.
   */
  method ExtractLocation(src: Source, content: string) returns (m: Fields)
    ensures m == LocationMetrics(src, content)
  {
    m := DefaultLocation(src);
    var found := FindCI(content, Marker(src));
    if found.Some? {
      m := Put(m, FoundKey(src), Bool(true));
      if NotAvailable(src, content) {
        m := Put(m, "not_available", Bool(true));
      } else {
        m := ExtractSection(src, SectionFrom(content, found.value), m);
      }
    }
  }

  /** The assignments made from one section's text, in order. */
  method ExtractSection(src: Source, section: string, init: Fields) returns (m: Fields)
    requires Keys(init) == LocationKeys(src)
    ensures m == Extracted(src, init, section)
  {
    ghost var a := FieldWrites(section, FixFields);
    var b, c, d := HdopWrites(section), EllipseWrites(section), Derivation(src, section);
    m := ApplyFixFields(section, FixFields, init);
    m := PutAll(m, b);
    m := PutAll(m, c);
    m := PutAll(m, d);
    PutAllConcat(init, a, b);
    PutAllConcat(init, a + b, c);
    PutAllConcat(init, a + b + c, d);
  }
}
