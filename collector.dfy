/**
 * The pure rules of `ap_gnss_stats/bin/ap_ssh_collector.py`: the host name a
 * capture is filed under, the environment-variable conversions, reading and
 * de-duplicating the AP list, the record written for one AP, and whether a run
 * counts as a success. The SSH session, threads, logging and files are not
 * modelled; what they deliver (the prompt, the file's lines, the variable's
 * value) is a parameter.
 */
module Collector {
  import opened Common
  import opened Text
  import opened Json
  import BaseParser
  import GnssState
  import InfoParser
  import CapwapConfig

  // ---------------------------------------------------------------------------
  // Host name: the truncation block of `run_ap_commands`.
  // ---------------------------------------------------------------------------

  /** `base_prompt.replace(" ", "_")`. */
  function BaseHostname(prompt: string): (r: string)
    ensures ' ' !in r
  {
    ReplaceChar(prompt, ' ', "_")
  }

  /**
   * The collector's own truncation test: an address is known, the name holds
   * a hyphen with a last segment of at most two characters, and the address's
   * first label is longer and starts with the name minus its last character.
   */
  predicate CollectorRecovers(base: string, apAddress: string)
  {
    apAddress != "" && GnssState.TruncationSuspected(base) &&
    var original := FirstPiece(apAddress, '.');
    |original| > |base| && StartsWith(original, base[..|base| - 1])
  }

  /** The host name the output files are named after. */
  method ResolveHostname(prompt: string, apAddress: string) returns (hostname: string)
    ensures CollectorRecovers(BaseHostname(prompt), apAddress) ==> hostname == FirstPiece(apAddress, '.')
    ensures !CollectorRecovers(BaseHostname(prompt), apAddress) ==> hostname == BaseHostname(prompt)
    ensures |hostname| >= |BaseHostname(prompt)|
  {
    var base := BaseHostname(prompt);
    if apAddress != "" && '-' in base && |LastPiece(base, '-')| <= 2 {
      var original := FirstPiece(apAddress, '.');
      if |original| > |base| && StartsWith(original, base[..|base| - 1]) {
        hostname := original;
      } else {
        hostname := base;
      }
    } else {
      hostname := base;
    }
  }

  /** A prefix of a prefix is a prefix. */
  lemma StartsWithShorter(s: string, p: string, n: nat)
    requires StartsWith(s, p) && n <= |p|
    ensures StartsWith(s, p[..n])
  {
    assert s[..|p|][..n] == s[..n];
  }

  /**
   * The collector's test strips one character where the parser strips the
   * whole last segment, so it is the stricter one: every name it recovers is
   * the name the parser's rule recovers from the same address.
   */
  lemma CollectorImpliesParser(base: string, apAddress: string)
    requires CollectorRecovers(base, apAddress)
    ensures GnssState.RecoverApName(base, apAddress) == FirstPiece(apAddress, '.')
  {
    var original := FirstPiece(apAddress, '.');
    var l := |LastPiece(base, '-')|;
    if 0 < l < |base| {
      StartsWithShorter(original, base[..|base| - 1], |base| - l);
      assert base[..|base| - 1][..|base| - l] == base[..|base| - l];
    }
  }

  // ---------------------------------------------------------------------------
  // Environment variables: `str_to_bool` and `get_env_or_default`.
  // ---------------------------------------------------------------------------

  /** `str_to_bool`: the lower-cased text is one of "true", "1", "yes", "y". */
  function StrToBool(value: string): (r: bool)
    ensures r <==> Lower(value) in ["true", "1", "yes", "y"]
  {
    var v := Lower(value);
    v == "true" || v == "1" || v == "yes" || v == "y"
  }

  /** Every text `convert_to_bool` accepts, `str_to_bool` accepts too; "1", "yes" and "y" only the latter. */
  lemma StrToBoolWider(value: string)
    ensures BaseParser.ConvertToBool(value) ==> StrToBool(value)
    ensures StrToBool("1") && StrToBool("yes") && StrToBool("y")
    ensures !BaseParser.ConvertToBool("1") && !BaseParser.ConvertToBool("yes") && !BaseParser.ConvertToBool("y")
  {
    assert Lower("1") == "1";
    assert Lower("y") == "y";
    assert Lower("yes") == "yes";
  }

  /** The exceptions `get_env_or_default` catches. */
  predicate Caught(error: string)
  {
    error == "ValueError" || error == "TypeError"
  }

  /**
   * `get_env_or_default`: the converted value of the variable when it is set
   * and converts, the default when it is unset or the conversion raises one of
   * the caught errors; any other error propagates.
   */
  function GetEnvOrDefault<T>(env: Option<string>, default: T, convert: string -> Result<T>): (r: Result<T>)
    ensures env.None? ==> r == Success(default)
    ensures env.Some? && convert(env.value).Success? ==> r == convert(env.value)
    ensures r.Failure? <==> env.Some? && convert(env.value).Failure? && !Caught(convert(env.value).error)
  {
    match env
    case None => Success(default)
    case Some(text) =>
      match convert(text)
      case Success(v) => Success(v)
      case Failure(e) => if Caught(e) then Success(default) else Failure(e)
  }

  /** `str_to_bool` as a conversion: it never raises. */
  function BoolConversion(text: string): Result<bool>
  {
    Success(StrToBool(text))
  }

  /** `int` as a conversion: `ValueError` on a text that is not an integer. */
  function IntConversion(text: string): Result<int>
  {
    match ParseInt(text)
    case Some(n) => Success(n)
    case None => Failure("ValueError")
  }

  /** With either conversion the lookup never fails, and it falls back to the default only where stated. */
  lemma EnvConversions(env: Option<string>, b: bool, n: int)
    ensures GetEnvOrDefault(env, b, BoolConversion) == Success(if env.Some? then StrToBool(env.value) else b)
    ensures GetEnvOrDefault(env, n, IntConversion) ==
              Success(if env.Some? && ParseInt(env.value).Some? then ParseInt(env.value).value else n)
  {
  }

  /** An integer variable written with a digit separator (`1_000`) is read as its number, as `int()` reads it. */
  lemma EnvGroupedInt(a: string, b: string, n: int)
    requires IsDigits(a) && IsDigits(b)
    ensures GetEnvOrDefault(Some(a + "_" + b), n, IntConversion) == Success(DigitsValue(a + b) as int)
  {
    ParseIntGrouped(a, b);
  }

  // ---------------------------------------------------------------------------
  // The AP list: `read_ap_list_from_file` and `OrderedDict.fromkeys`.
  // ---------------------------------------------------------------------------

  /** A stripped line that names an AP: not empty and not a comment. */
  predicate ApLine(x: string)
  {
    x != "" && x[0] != '#'
  }

  /** What one line contributes: its stripped text when that names an AP. */
  function Keep(line: string): (r: seq<string>)
    ensures |r| <= 1 && forall j :: 0 <= j < |r| ==> ApLine(r[j]) && Trimmed(r[j]) && r[j] == Strip(line)
  {
    var x := Strip(line);
    if ApLine(x) then [x] else []
  }

  /** The APs the lines of a file list, in file order. */
  function ApEntries(lines: seq<string>): (r: seq<string>)
    ensures forall j :: 0 <= j < |r| ==> ApLine(r[j]) && Trimmed(r[j])
  {
    if |lines| == 0 then [] else Keep(lines[0]) + ApEntries(lines[1..])
  }

  /** The list of a file read in two parts is the two parts' lists: the order is the file's. */
  lemma {:induction false} ApEntriesAppend(a: seq<string>, b: seq<string>)
    ensures ApEntries(a + b) == ApEntries(a) + ApEntries(b)
  {
    if |a| > 0 {
      assert (a + b)[0] == a[0] && (a + b)[1..] == a[1..] + b;
      ApEntriesAppend(a[1..], b);
      AppendAssoc(Keep(a[0]), ApEntries(a[1..]), ApEntries(b));
    } else {
      assert a + b == b;
    }
  }

  /** Exactly the stripped lines that are neither empty nor comments are listed. */
  lemma {:induction false} ApEntriesMembers(lines: seq<string>, x: string)
    ensures x in ApEntries(lines) <==> ApLine(x) && exists j :: 0 <= j < |lines| && Strip(lines[j]) == x
  {
    if |lines| > 0 {
      ApEntriesMembers(lines[1..], x);
      if x in ApEntries(lines[1..]) {
        var j :| 0 <= j < |lines[1..]| && Strip(lines[1..][j]) == x;
        assert Strip(lines[j + 1]) == x;
      }
      if ApLine(x) && (exists j :: 0 <= j < |lines| && Strip(lines[j]) == x) {
        var j :| 0 <= j < |lines| && Strip(lines[j]) == x;
        if j > 0 {
          assert Strip(lines[1..][j - 1]) == x;
        }
      }
    }
  }

  /** The reading loop. */
  method ReadApList(lines: seq<string>) returns (aps: seq<string>)
    ensures aps == ApEntries(lines)
  {
    aps := [];
    var i := 0;
    while i < |lines|
      invariant 0 <= i <= |lines|
      invariant aps == ApEntries(lines[..i])
    {
      var line := Strip(lines[i]);
      ApEntriesStep(lines, i);
      assert Keep(lines[i]) == if ApLine(line) then [line] else [];
      if line != "" && line[0] != '#' {
        aps := aps + [line];
      }
      i := i + 1;
    }
    assert lines[..i] == lines;
  }

  lemma ApEntriesStep(lines: seq<string>, i: nat)
    requires i < |lines|
    ensures ApEntries(lines[..i + 1]) == ApEntries(lines[..i]) + Keep(lines[i])
  {
    BaseParser.TakeSnoc(lines, i);
    ApEntriesAppend(lines[..i], [lines[i]]);
    ApEntriesOne(lines[i]);
  }

  lemma ApEntriesOne(line: string)
    ensures ApEntries([line]) == Keep(line)
  {
    assert [line][1..] == [];
  }

  /** `list(OrderedDict.fromkeys(xs))`: each entry once, where it first occurs. */
  function Dedupe(xs: seq<string>): (r: seq<string>)
    ensures forall i, j :: 0 <= i < j < |r| ==> r[i] != r[j]
    ensures forall x :: x in r <==> x in xs
  {
    if |xs| == 0 then []
    else
      var d := Dedupe(xs[..|xs| - 1]);
      var x := xs[|xs| - 1];
      assert forall y :: y in xs <==> y in xs[..|xs| - 1] || y == x by {
        assert xs == xs[..|xs| - 1] + [x];
      }
      if x in d then d else d + [x]
  }

  /** Where `x` first occurs in `xs`. */
  function First(xs: seq<string>, x: string): (i: nat)
    requires x in xs
    ensures i < |xs| && xs[i] == x && x !in xs[..i]
  {
    if xs[0] == x then
      assert xs[..0] == [];
      0
    else
      var i := First(xs[1..], x);
      assert xs[..i + 1] == [xs[0]] + xs[1..][..i];
      i + 1
  }

  /** A first occurrence inside a prefix is the first occurrence in the whole. */
  lemma FirstPrefix(xs: seq<string>, n: nat, x: string)
    requires n <= |xs| && x in xs[..n]
    ensures First(xs[..n], x) == First(xs, x)
  {
    var i, k := First(xs[..n], x), First(xs, x);
    assert xs[..n][..i] == xs[..i];
  }

  /** The kept entries follow the order of their first occurrences. */
  lemma {:induction false} DedupeOrder(xs: seq<string>)
    ensures forall i, j :: 0 <= i < j < |Dedupe(xs)| ==> First(xs, Dedupe(xs)[i]) < First(xs, Dedupe(xs)[j])
  {
    if |xs| > 0 {
      var n := |xs| - 1;
      var d := Dedupe(xs[..n]);
      DedupeOrder(xs[..n]);
      var x := xs[n];
      forall i, j | 0 <= i < j < |Dedupe(xs)|
        ensures First(xs, Dedupe(xs)[i]) < First(xs, Dedupe(xs)[j])
      {
        var a, b := Dedupe(xs)[i], Dedupe(xs)[j];
        assert a == d[i] && a in xs[..n];
        FirstPrefix(xs, n, a);
        if j < |d| {
          assert b == d[j] && b in xs[..n];
          FirstPrefix(xs, n, b);
        } else {
          assert b == x;
        }
      }
    }
  }

  // ---------------------------------------------------------------------------
  // The record written for one AP: `ordered_data`.
  // ---------------------------------------------------------------------------

  const MetadataKey := "metadata"
  const RawKey := "raw_data"

  /** The entries of `d` whose key is not in `drop`, in order. */
  function Others<V>(d: seq<(string, V)>, drop: set<string>): seq<(string, V)>
  {
    if |d| == 0 then []
    else if d[0].0 in drop then Others(d[1..], drop)
    else [d[0]] + Others(d[1..], drop)
  }

  /** Dropping keys leaves every other key's value as it was. */
  lemma {:induction false} OthersGet<V>(d: seq<(string, V)>, drop: set<string>, k: string)
    ensures Get(Others(d, drop), k) == if k in drop then None else Get(d, k)
  {
    if |d| > 0 {
      OthersGet(d[1..], drop, k);
      if d[0].0 !in drop {
        KeysCons(d[0], Others(d[1..], drop));
      }
    }
  }

  /** What is kept is entries of `d` with keys outside `drop`; distinct keys stay distinct. */
  lemma {:induction false} OthersEntries<V>(d: seq<(string, V)>, drop: set<string>)
    ensures forall i :: 0 <= i < |Others(d, drop)| ==> Others(d, drop)[i] in d && Others(d, drop)[i].0 !in drop
    ensures UniqueKeys(d) ==> UniqueKeys(Others(d, drop))
  {
    if |d| > 0 {
      var rest := Others(d[1..], drop);
      OthersEntries(d[1..], drop);
      assert forall i :: 0 <= i < |rest| ==> rest[i] in d;
      if d[0].0 !in drop && UniqueKeys(d) {
        forall i | 0 <= i < |rest| ensures rest[i].0 != d[0].0 {
          var j :| 0 <= j < |d[1..]| && d[1..][j] == rest[i];
          assert d[j + 1] == rest[i];
        }
      }
    }
  }

  lemma {:induction false} OthersAppend<V>(a: seq<(string, V)>, b: seq<(string, V)>, drop: set<string>)
    ensures Others(a + b, drop) == Others(a, drop) + Others(b, drop)
  {
    if |a| > 0 {
      assert (a + b)[0] == a[0] && (a + b)[1..] == a[1..] + b;
      OthersAppend(a[1..], b, drop);
      AppendAssoc([a[0]], Others(a[1..], drop), Others(b, drop));
    } else {
      assert a + b == b;
    }
  }

  /** Assigning a key that is dropped anyway changes nothing. */
  lemma {:induction false} OthersPut<V>(d: seq<(string, V)>, k: string, v: V, drop: set<string>)
    requires k in drop
    ensures Others(Put(d, k, v), drop) == Others(d, drop)
  {
    if |d| > 0 && d[0].0 != k {
      var rest := Put(d[1..], k, v);
      assert Put(d, k, v) == [d[0]] + rest;
      assert ([d[0]] + rest)[1..] == rest;
      OthersPut(d[1..], k, v, drop);
    } else if |d| > 0 {
      assert Put(d, k, v)[1..] == d[1..];
    }
  }

  /** `del d[k]` on a dict is dropping `k`. */
  lemma {:induction false} RemoveIsOthers<V>(d: seq<(string, V)>, k: string)
    ensures Remove(d, k) == Others(d, {k})
  {
    if |d| > 0 {
      RemoveIsOthers(d[1..], k);
    }
  }

  /** Dropping twice is dropping the union. */
  lemma {:induction false} OthersTwice<V>(d: seq<(string, V)>, a: set<string>, b: set<string>)
    ensures Others(Others(d, a), b) == Others(d, a + b)
  {
    if |d| > 0 {
      OthersTwice(d[1..], a, b);
      if d[0].0 !in a {
        var rest := Others(d[1..], a);
        assert ([d[0]] + rest)[1..] == rest;
      }
    }
  }

  /** The keys that do not follow the metadata. */
  function Dropped(includeRaw: bool): set<string>
  {
    if includeRaw then {MetadataKey} else {MetadataKey, RawKey}
  }

  /** The record the collector writes: the metadata first, then the merged data's other entries in order. */
  function Written(parsed: Fields, capwap: Fields, metadata: Value, includeRaw: bool): Fields
  {
    [(MetadataKey, metadata)] + Others(PutAll(parsed, capwap), Dropped(includeRaw))
  }

  /**
   * Merging the CAPWAP data into the parsed data, setting the metadata, copying
   * into the ordered dict with the metadata first, and deleting the raw data
   * unless it is wanted.
   */
  method OrderedData(parsed: Fields, capwap: Fields, metadata: Value, includeRaw: bool) returns (ordered: Fields)
    requires UniqueKeys(parsed)
    ensures ordered == Written(parsed, capwap, metadata, includeRaw)
  {
    var merged := Merge(parsed, capwap);
    PutAllFacts(parsed, capwap);
    var withMetadata := Put(merged, MetadataKey, metadata);
    ordered := MetadataFirst(withMetadata, metadata);
    OthersPut(merged, MetadataKey, metadata, {MetadataKey});
    if !includeRaw && RawKey in Keys(ordered) {
      ordered := Remove(ordered, RawKey);
    }
    DeleteRaw(merged, metadata, includeRaw);
  }

  /** `for key, value in capwap_data.items(): parsed_data[key] = value`. */
  method Merge(parsed: Fields, capwap: Fields) returns (merged: Fields)
    ensures merged == PutAll(parsed, capwap)
  {
    merged := parsed;
    var j := 0;
    while j < |capwap|
      invariant 0 <= j <= |capwap|
      invariant merged == PutAll(parsed, capwap[..j])
    {
      assert capwap[..j + 1][..j] == capwap[..j];
      merged := Put(merged, capwap[j].0, capwap[j].1);
      j := j + 1;
    }
    assert capwap[..j] == capwap;
  }

  /** The ordered dict: the metadata, then every other entry of `data` in order. */
  method MetadataFirst(data: Fields, metadata: Value) returns (ordered: Fields)
    requires UniqueKeys(data)
    ensures ordered == [(MetadataKey, metadata)] + Others(data, {MetadataKey})
  {
    ordered := [(MetadataKey, metadata)];
    var i := 0;
    while i < |data|
      invariant 0 <= i <= |data|
      invariant ordered == [(MetadataKey, metadata)] + Others(data[..i], {MetadataKey})
    {
      var (key, value) := data[i];
      CopyStep(data, metadata, i);
      if key != MetadataKey {
        ordered := Put(ordered, key, value);
      }
      i := i + 1;
    }
    assert data[..i] == data;
  }

  /** One turn of the copy: a key other than the metadata's is new, so assigning it appends it. */
  lemma CopyStep(data: Fields, metadata: Value, i: nat)
    requires UniqueKeys(data) && i < |data|
    ensures var ordered := [(MetadataKey, metadata)] + Others(data[..i], {MetadataKey});
            [(MetadataKey, metadata)] + Others(data[..i + 1], {MetadataKey}) ==
            if data[i].0 != MetadataKey then Put(ordered, data[i].0, data[i].1) else ordered
  {
    var rest := Others(data[..i], {MetadataKey});
    BaseParser.TakeSnoc(data, i);
    OthersAppend(data[..i], [data[i]], {MetadataKey});
    OthersOne(data[i], {MetadataKey});
    if data[i].0 != MetadataKey {
      CopyFresh(data, metadata, i);
      PutNew([(MetadataKey, metadata)] + rest, data[i].0, data[i].1);
      AppendAssoc([(MetadataKey, metadata)], rest, [data[i]]);
    }
  }

  lemma OthersOne<V>(x: (string, V), drop: set<string>)
    ensures Others([x], drop) == if x.0 in drop then [] else [x]
  {
    assert [x][1..] == [];
  }

  /** A key other than the metadata's is not yet among the copied entries. */
  lemma CopyFresh(data: Fields, metadata: Value, i: nat)
    requires UniqueKeys(data) && i < |data| && data[i].0 != MetadataKey
    ensures var ordered := [(MetadataKey, metadata)] + Others(data[..i], {MetadataKey});
            forall p :: 0 <= p < |ordered| ==> ordered[p].0 != data[i].0
  {
    var ordered := [(MetadataKey, metadata)] + Others(data[..i], {MetadataKey});
    OthersEntries(data[..i], {MetadataKey});
    forall p | 0 <= p < |ordered|
      ensures ordered[p].0 != data[i].0
    {
      if p > 0 {
        assert ordered[p] == Others(data[..i], {MetadataKey})[p - 1];
        var q :| 0 <= q < i && data[..i][q] == ordered[p];
        assert data[q].0 != data[i].0;
      }
    }
  }

  /** Deleting the raw data when it is not wanted is dropping it along with the metadata. */
  lemma DeleteRaw(merged: Fields, metadata: Value, includeRaw: bool)
    ensures var ordered := [(MetadataKey, metadata)] + Others(merged, {MetadataKey});
            (if !includeRaw && RawKey in Keys(ordered) then Remove(ordered, RawKey) else ordered) ==
            [(MetadataKey, metadata)] + Others(merged, Dropped(includeRaw))
  {
    var rest := Others(merged, {MetadataKey});
    var ordered := [(MetadataKey, metadata)] + rest;
    if !includeRaw {
      OthersTwice(merged, {MetadataKey}, {RawKey});
      assert {MetadataKey} + {RawKey} == Dropped(false);
      if RawKey in Keys(ordered) {
        RemoveIsOthers(ordered, RawKey);
        assert ordered[1..] == rest;
      } else {
        KeysCons((MetadataKey, metadata), rest);
        OthersGet(rest, {RawKey}, RawKey);
        OthersNoKey(rest, RawKey);
      }
    }
  }

  /** Dropping a key the dict does not hold changes nothing. */
  lemma {:induction false} OthersNoKey<V>(d: seq<(string, V)>, k: string)
    requires Get(d, k) == None
    ensures Others(d, {k}) == d
  {
    if |d| > 0 {
      OthersNoKey(d[1..], k);
    }
  }

  /**
   * The written record starts with the metadata; every other key holds the
   * merged value (the CAPWAP data winning on a clash), raw data only when
   * wanted; and no key occurs twice.
   */
  lemma WrittenFacts(parsed: Fields, capwap: Fields, metadata: Value, includeRaw: bool, k: string)
    requires UniqueKeys(parsed)
    ensures Written(parsed, capwap, metadata, includeRaw)[0] == (MetadataKey, metadata)
    ensures UniqueKeys(Written(parsed, capwap, metadata, includeRaw))
    ensures k != MetadataKey && (includeRaw || k != RawKey) ==>
              Get(Written(parsed, capwap, metadata, includeRaw), k) ==
              (if k in Keys(capwap) then LastGet(capwap, k) else Get(parsed, k))
    ensures !includeRaw ==> RawKey !in Keys(Written(parsed, capwap, metadata, includeRaw))
  {
    var merged := PutAll(parsed, capwap);
    var drop := Dropped(includeRaw);
    var rest := Others(merged, drop);
    PutAllFacts(parsed, capwap);
    OthersEntries(merged, drop);
    OthersGet(merged, drop, k);
    OthersGet(merged, drop, RawKey);
    KeysCons((MetadataKey, metadata), rest);
    MetadataAhead(metadata, rest);
  }

  /** An entry put ahead of entries with distinct keys other than its own keeps the keys distinct. */
  lemma MetadataAhead(metadata: Value, rest: Fields)
    requires UniqueKeys(rest) && forall i :: 0 <= i < |rest| ==> rest[i].0 != MetadataKey
    ensures UniqueKeys([(MetadataKey, metadata)] + rest)
  {
    var w := [(MetadataKey, metadata)] + rest;
    forall i, j | 0 <= i < j < |w| ensures w[i].0 != w[j].0 {
      assert w[j] == rest[j - 1];
      if i > 0 {
        assert w[i] == rest[i - 1];
      }
    }
  }

  // ---------------------------------------------------------------------------
  // Success classification.
  // ---------------------------------------------------------------------------

  /** The sections whose presence makes a run useful. */
  const MainSections: seq<string> := ["gnss_state", "show_version", "satellites"]

  /** A run succeeds when the record holds more than the metadata, including one of the main sections. */
  function Succeeded(ordered: Fields): (r: bool)
  {
    if |ordered| <= 1 then false
    else exists j :: 0 <= j < |MainSections| && MainSections[j] in Keys(ordered)
  }

  /**
   * Whenever the parser returns a record, the run succeeds: every record
   * `parse` returns holds "gnss_state" (`InfoParser.RecordShape`), so the two
   * failure branches are reached only through an empty capture or a parser
   * exception, whatever the CAPWAP data.
   */
  lemma ParsedRunSucceeds(parsed: Fields, capwap: Fields, metadata: Value, includeRaw: bool)
    requires UniqueKeys(parsed) && "gnss_state" in Keys(parsed)
    ensures Succeeded(Written(parsed, capwap, metadata, includeRaw))
  {
    var w := Written(parsed, capwap, metadata, includeRaw);
    WrittenFacts(parsed, capwap, metadata, includeRaw, "gnss_state");
    PutAllFacts(parsed, capwap);
    assert Get(w, "gnss_state").Some?;
    assert MainSections[0] in Keys(w);
  }

  /** The records `parse` returns are of that kind. */
  lemma RecordHasGnssState(record: Fields)
    requires Keys(record) == InfoParser.RecordKeys
    ensures "gnss_state" in Keys(record)
  {
    assert Keys(record)[3] == "gnss_state";
  }

  /** A record of the metadata alone, or with none of the main sections, is a failure. */
  lemma FailedRuns(ordered: Fields)
    ensures |ordered| <= 1 ==> !Succeeded(ordered)
    ensures (forall j :: 0 <= j < |ordered| ==> ordered[j].0 !in MainSections) ==> !Succeeded(ordered)
  {
  }
}
