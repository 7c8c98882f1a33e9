/**
 * The satellite aggregates of the CSV exporter (`_aggregate_satellite_data` and
 * `_calculate_median` in lib/exporters/csv_exporter.py): overall and
 * per-constellation counts of used and unused satellites, and the minimum,
 * maximum, mean and median of the SNR and elevation readings.
 */
module SatelliteStats {
  import opened Common
  import opened Json
  import opened Text
  import opened Ordering
  import opened CsvColumns

  // ---------------------------------------------------------------------------
  // Counts.
  // ---------------------------------------------------------------------------

  /**
   * `str(sat.get("used", "")).lower() == "yes"`. Only a text can pass: the
   * `str` of None, a bool, a number, a dict or a list never lower-cases to "yes".
   */
  predicate IsUsed(sat: Value)
  {
    sat.Obj? && Get(sat.fields, "used").Some? && Get(sat.fields, "used").value.Str? &&
    Lower(Get(sat.fields, "used").value.s) == "yes"
  }

  /** `sum(1 for sat in satellites if ...)`. */
  function UsedCount(sats: seq<Value>): (r: nat)
    ensures r <= |sats|
  {
    if |sats| == 0 then 0 else UsedCount(sats[..|sats| - 1]) + (if IsUsed(sats[|sats| - 1]) then 1 else 0)
  }

  /** One constellation's `{"total": .., "used": .., "unused": ..}`. */
  datatype Tally = Tally(total: nat, used: nat, unused: nat)

  type Tallies = seq<(string, Tally)>

  /** A tally after one more satellite, used or not. */
  function Counted(t: Tally, used: bool): Tally
  {
    if used then t.(total := t.total + 1, used := t.used + 1) else t.(total := t.total + 1, unused := t.unused + 1)
  }

  /** The dict after counting one more satellite of constellation `c`. */
  function Bump(stats: Tallies, c: string, used: bool): Tallies
  {
    Put(stats, c, Counted(GetOr(stats, c, Tally(0, 0, 0)), used))
  }

  /** The per-constellation dict after counting one more satellite. */
  function CountOne(stats: Tallies, sat: Value): Tallies
  {
    Bump(stats, ConstellationOf(sat), IsUsed(sat))
  }

  /** `constellation_stats` after the loop over all satellites. */
  function TalliesOf(sats: seq<Value>): Tallies
  {
    if |sats| == 0 then [] else CountOne(TalliesOf(sats[..|sats| - 1]), sats[|sats| - 1])
  }

  function TotalOf(t: Tally): nat { t.total }
  function UsedOf(t: Tally): nat { t.used }
  function UnusedOf(t: Tally): nat { t.unused }

  /** The sum of one counter over all constellations. */
  function Total(stats: Tallies, m: Tally -> nat): nat
  {
    if |stats| == 0 then 0 else m(stats[0].1) + Total(stats[1..], m)
  }

  /** The counter of `k`'s tally, 0 when `k` has none. */
  function Held(stats: Tallies, k: string, m: Tally -> nat): nat
  {
    match Get(stats, k)
    case None => 0
    case Some(t) => m(t)
  }

  /** Replacing one tally changes a sum by the difference. */
  lemma {:induction false} TotalPut(stats: Tallies, k: string, v: Tally, m: Tally -> nat)
    ensures Total(Put(stats, k, v), m) + Held(stats, k, m) == Total(stats, m) + m(v)
    decreases |stats|
  {
    if |stats| > 0 && stats[0].0 != k {
      var rest := Put(stats[1..], k, v);
      TotalPut(stats[1..], k, v, m);
      assert Put(stats, k, v) == [stats[0]] + rest;
      assert ([stats[0]] + rest)[1..] == rest;
    } else if |stats| > 0 {
      assert Put(stats, k, v) == [(k, v)] + stats[1..];
      assert ([(k, v)] + stats[1..])[1..] == stats[1..];
    }
  }

  /** used + unused == total in every constellation's tally. */
  ghost predicate Balanced(stats: Tallies)
  {
    forall k :: Get(stats, k).Some? ==> Get(stats, k).value.used + Get(stats, k).value.unused == Get(stats, k).value.total
  }

  lemma {:induction false} TalliesBalanced(sats: seq<Value>)
    ensures Balanced(TalliesOf(sats))
  {
    if |sats| > 0 {
      TalliesBalanced(sats[..|sats| - 1]);
    }
  }

  /** Counting one satellite adds one to the total sum and one to the used or the unused sum. */
  lemma BumpSums(stats: Tallies, c: string, used: bool)
    ensures Total(Bump(stats, c, used), TotalOf) == Total(stats, TotalOf) + 1
    ensures Total(Bump(stats, c, used), UsedOf) == Total(stats, UsedOf) + (if used then 1 else 0)
    ensures Total(Bump(stats, c, used), UnusedOf) == Total(stats, UnusedOf) + (if used then 0 else 1)
  {
    var t := GetOr(stats, c, Tally(0, 0, 0));
    assert Held(stats, c, TotalOf) == t.total && Held(stats, c, UsedOf) == t.used && Held(stats, c, UnusedOf) == t.unused;
    TotalPut(stats, c, Counted(t, used), TotalOf);
    TotalPut(stats, c, Counted(t, used), UsedOf);
    TotalPut(stats, c, Counted(t, used), UnusedOf);
  }

  /**
   * The per-constellation totals sum to the number of satellites, their used
   * counts to the overall used count, and their unused counts to the rest.
   */
  lemma {:induction false} TalliesSums(sats: seq<Value>)
    ensures Total(TalliesOf(sats), TotalOf) == |sats|
    ensures Total(TalliesOf(sats), UsedOf) == UsedCount(sats)
    ensures Total(TalliesOf(sats), UnusedOf) == |sats| - UsedCount(sats)
  {
    if |sats| > 0 {
      var init := sats[..|sats| - 1];
      TalliesSums(init);
      BumpSums(TalliesOf(init), ConstellationOf(sats[|sats| - 1]), IsUsed(sats[|sats| - 1]));
    }
  }

  /** The tallied constellations are the distinct constellations, each once. */
  lemma {:induction false} TalliesKeys(sats: seq<Value>)
    ensures UniqueKeys(TalliesOf(sats))
    ensures Elements(Keys(TalliesOf(sats))) == Constellations(sats)
  {
    if |sats| > 0 {
      var init := sats[..|sats| - 1];
      TalliesKeys(init);
      BumpKeys(TalliesOf(init), ConstellationOf(sats[|sats| - 1]), IsUsed(sats[|sats| - 1]), Constellations(init));
      assert Constellations(sats) == Constellations(init) + {ConstellationOf(sats[|sats| - 1])};
    }
  }

  /** Counting a satellite adds its constellation to the tallied ones, once. */
  lemma BumpKeys(stats: Tallies, c: string, used: bool, cs: set<string>)
    requires UniqueKeys(stats) && Elements(Keys(stats)) == cs
    ensures UniqueKeys(Bump(stats, c, used)) && Elements(Keys(Bump(stats, c, used))) == cs + {c}
  {
    var before := Keys(stats);
    assert Elements(before + [c]) == Elements(before) + {c};
  }

  // ---------------------------------------------------------------------------
  // Readings.
  // ---------------------------------------------------------------------------

  /** Python's `a or b`. */
  function Or(a: Value, b: Value): Value
  {
    if Truthy(a) then a else b
  }

  /**
   * `sat.get("snr") or sat.get("cn0") or sat.get("cno")` when `snr` holds, else
   * `sat.get("elev") or sat.get("elevation")`: the first truthy field, or the
   * last field as it is.
   */
  function Reading(sat: Value, snr: bool): Value
  {
    if !sat.Obj? then Null
    else if snr then Or(Or(Field(sat.fields, "snr"), Field(sat.fields, "cn0")), Field(sat.fields, "cno"))
    else Or(Field(sat.fields, "elev"), Field(sat.fields, "elevation"))
  }

  /** `float(v)`, or None where it raises ValueError or TypeError. */
  function FloatOf(v: Value): Option<real>
  {
    match v
    case Bool(b) => Some(if b then 1.0 else 0.0)
    case Int(i) => Some(i as real)
    case Num(r) => Some(r)
    case Str(s) => ParseFloat(s)
    case _ => None
  }

  /** The reading kept: present, convertible and above -100 (-128 marks "no signal"). */
  function Kept(v: Value): Option<real>
  {
    if v.Null? then None
    else match FloatOf(v)
      case Some(f) => if f > -100.0 then Some(f) else None
      case None => None
  }

  /** `snr_values` (or `elevation_values`) after the loop over all satellites. */
  function Readings(sats: seq<Value>, snr: bool): (r: seq<real>)
    ensures forall i :: 0 <= i < |r| ==> r[i] > -100.0
  {
    if |sats| == 0 then []
    else
      var init := Readings(sats[..|sats| - 1], snr);
      match Kept(Reading(sats[|sats| - 1], snr))
      case Some(f) => init + [f]
      case None => init
  }

  /** `_calculate_median` of a sorted list: the middle value, or the mean of the two middle values. */
  function Median(values: seq<real>): real
    requires |values| > 0
  {
    var n := |values|;
    if n % 2 == 1 then values[n / 2] else (values[n / 2 - 1] + values[n / 2]) / 2.0
  }

  /** The median of a sorted list lies between its first and last values. */
  lemma MedianBounds(values: seq<real>)
    requires |values| > 0 && NonDecreasing(values)
    ensures values[0] <= Median(values) <= values[|values| - 1]
  {
    var n := |values|;
    if n % 2 == 0 {
      assert values[0] <= values[n / 2 - 1] && values[n / 2] <= values[n - 1];
    }
  }

  /** `round(sum(values) / len(values), 2)` without the rounding. */
  function Mean(values: seq<real>): real
    requires |values| > 0
  {
    Sum(values) / |values| as real
  }

  lemma {:induction false} SumBounds(values: seq<real>, lo: real, hi: real)
    requires forall i :: 0 <= i < |values| ==> lo <= values[i] <= hi
    ensures |values| as real * lo <= Sum(values) <= |values| as real * hi
  {
    if |values| > 0 {
      SumBounds(values[..|values| - 1], lo, hi);
    }
  }

  /** The mean lies between the least and the greatest reading. */
  lemma MeanBounds(values: seq<real>)
    requires |values| > 0
    ensures Min(values) <= Mean(values) <= Max(values)
  {
    Between(values);
    MeanBetween(values, Min(values), Max(values));
  }

  lemma MeanBetween(values: seq<real>, lo: real, hi: real)
    requires |values| > 0
    requires forall i :: 0 <= i < |values| ==> lo <= values[i] <= hi
    ensures lo <= Mean(values) <= hi
  {
    var n := |values| as real;
    SumBounds(values, lo, hi);
    Divided(Sum(values), n, lo, hi);
  }

  lemma Between(values: seq<real>)
    requires |values| > 0
    ensures forall i :: 0 <= i < |values| ==> Min(values) <= values[i] <= Max(values)
  {
    forall i | 0 <= i < |values|
      ensures Min(values) <= values[i] <= Max(values)
    {
      assert values[i] in values;
    }
  }

  lemma Divided(s: real, n: real, lo: real, hi: real)
    requires n > 0.0 && n * lo <= s <= n * hi
    ensures lo <= s / n <= hi
  {
    assert s / n * n == s;
  }

  /** The four statistics of one kind of reading; none when no reading was kept. */
  function StatWrites(names: StatNames, values: seq<real>): Fields
  {
    if |values| == 0 then []
    else
      var sorted := SortReals(values);
      StatRow(names, Min(sorted), Max(sorted), Mean(sorted), Median(sorted))
  }

  function StatRow(names: StatNames, min: real, max: real, avg: real, median: real): Fields
  {
    [(names.min, Num(min)), (names.max, Num(max)), (names.avg, Num(avg)), (names.median, Num(median))]
  }

  /** In a sorted list the minimum comes first and the maximum last. */
  lemma SortedMin(s: seq<real>)
    requires |s| > 0 && NonDecreasing(s)
    ensures Min(s) == s[0]
  {
    var m := Min(s);
    var j :| 0 <= j < |s| && s[j] == m;
    assert s[0] in s;
  }

  lemma SortedMax(s: seq<real>)
    requires |s| > 0 && NonDecreasing(s)
    ensures Max(s) == s[|s| - 1]
  {
    var m := Max(s);
    var j :| 0 <= j < |s| && s[j] == m;
    assert s[|s| - 1] in s;
  }

  /**
   * The statistics are ordered: the minimum is at most the median and the mean,
   * which are at most the maximum; the minimum and maximum are readings, and
   * bound every reading.
   */
  lemma StatsOrdered(values: seq<real>)
    requires |values| > 0
    ensures var sorted := SortReals(values);
      Min(sorted) <= Median(sorted) <= Max(sorted) && Min(sorted) <= Mean(sorted) <= Max(sorted) &&
      Min(sorted) in values && Max(sorted) in values &&
      forall x :: x in values ==> Min(sorted) <= x <= Max(sorted)
  {
    var sorted := SortReals(values);
    SortedMin(sorted);
    SortedMax(sorted);
    MedianBounds(sorted);
    MeanBounds(sorted);
    assert forall x :: x in values <==> x in multiset(values);
    assert forall x :: x in sorted <==> x in multiset(sorted);
  }

  // ---------------------------------------------------------------------------
  // The metrics dict.
  // ---------------------------------------------------------------------------

  /** The three count assignments. */
  function CountRow(names: CountNames, total: int, used: int): Fields
  {
    [(names.total, Int(total)), (names.used, Int(used)), (names.unused, Int(total - used))]
  }

  /** The three assignments for one constellation. */
  function ConstellationWrites(c: string, t: Tally): Fields
  {
    [(TotalKey(c), Int(t.total)), (UsedKey(c), Int(t.used)), (UnusedKey(c), Int(t.unused))]
  }

  function TallyWrites(stats: Tallies): Fields
  {
    if |stats| == 0 then []
    else TallyWrites(stats[..|stats| - 1]) + ConstellationWrites(stats[|stats| - 1].0, stats[|stats| - 1].1)
  }

  /** Every assignment `_aggregate_satellite_data` makes, in order. */
  function AggregateWrites(sats: seq<Value>): Fields
  {
    if |sats| == 0 then [] else CountRow(CountKeys, |sats|, UsedCount(sats)) + Following(sats)
  }

  /** The assignments after the three counts. */
  function Following(sats: seq<Value>): Fields
  {
    TallyWrites(TalliesOf(sats)) + StatWrites(SnrNames, Readings(sats, true)) + StatWrites(ElevationNames, Readings(sats, false))
  }

  /** `_aggregate_satellite_data(satellites)`. */
  function Aggregate(sats: seq<Value>): Fields
  {
    PutAll([], AggregateWrites(sats))
  }

  /** Every key a run of assignments writes is in `cols`. */
  predicate WritesIn(w: Fields, cols: set<string>)
  {
    forall i :: 0 <= i < |w| ==> w[i].0 in cols
  }

  lemma WritesInConcat(a: Fields, b: Fields, cols: set<string>)
    requires WritesIn(a, cols) && WritesIn(b, cols)
    ensures WritesIn(a + b, cols)
  {
  }

  lemma {:induction false} TallyWritesIn(stats: Tallies, cs: set<string>)
    requires forall i :: 0 <= i < |stats| ==> stats[i].0 in cs
    ensures WritesIn(TallyWrites(stats), Spread(cs))
  {
    if |stats| > 0 {
      var n := |stats| - 1;
      TallyWritesIn(stats[..n], cs);
      ConstellationWritesIn(stats[n].0, stats[n].1, cs);
      WritesInConcat(TallyWrites(stats[..n]), ConstellationWrites(stats[n].0, stats[n].1), Spread(cs));
    }
  }

  lemma ConstellationWritesIn(c: string, t: Tally, cs: set<string>)
    requires c in cs
    ensures WritesIn(ConstellationWrites(c, t), Spread(cs))
  {
    assert ConstellationColumns(c) <= Spread(cs);
  }

  lemma StatWritesIn(names: StatNames, values: seq<real>)
    ensures WritesIn(StatWrites(names, values), NameSet(names))
  {
    if |values| > 0 {
      var sorted := SortReals(values);
      StatRowIn(names, Min(sorted), Max(sorted), Mean(sorted), Median(sorted));
    }
  }

  lemma StatRowIn(names: StatNames, min: real, max: real, avg: real, median: real)
    ensures WritesIn(StatRow(names, min, max, avg, median), NameSet(names))
  {
  }

  lemma CountWritesIn(names: CountNames, total: int, used: int)
    ensures WritesIn(CountRow(names, total, used), {names.total, names.used, names.unused})
  {
  }

  lemma WritesInMono(w: Fields, a: set<string>, b: set<string>)
    requires WritesIn(w, a) && a <= b
    ensures WritesIn(w, b)
  {
  }

  lemma {:induction false} PutAllFromEmptyKeys(w: Fields, k: string)
    ensures k in Keys(PutAll([], w)) <==> k in Keys(w)
  {
    PutAllFacts([], w);
    NewKeysMembers(Keys(w), []);
  }

  /**
   * Every aggregate key is a satellite column of the same list: a batch's
   * derived columns always cover its aggregates.
   */
  lemma AggregateKeysInColumns(sats: seq<Value>)
    ensures forall k :: k in Keys(Aggregate(sats)) ==> k in SatelliteColumns(sats)
  {
    if |sats| > 0 {
      var stats := TalliesOf(sats);
      TalliesIn(sats);
      TallyWritesIn(stats, Constellations(sats));
      StatWritesIn(SnrNames, Readings(sats, true));
      StatWritesIn(ElevationNames, Readings(sats, false));
      CountWritesIn(CountKeys, |sats|, UsedCount(sats));
      RunsIn(CountRow(CountKeys, |sats|, UsedCount(sats)), TallyWrites(stats),
             StatWrites(SnrNames, Readings(sats, true)), StatWrites(ElevationNames, Readings(sats, false)),
             Spread(Constellations(sats)));
    }
    KeysIn(AggregateWrites(sats), SatelliteColumns(sats));
  }

  /** Every tallied constellation is one of the list's constellations. */
  lemma TalliesIn(sats: seq<Value>)
    ensures forall i :: 0 <= i < |TalliesOf(sats)| ==> TalliesOf(sats)[i].0 in Constellations(sats)
  {
    var stats := TalliesOf(sats);
    TalliesKeys(sats);
    forall i | 0 <= i < |stats|
      ensures stats[i].0 in Constellations(sats)
    {
      assert Keys(stats)[i] in Elements(Keys(stats));
    }
  }

  /** The four runs of the aggregate, each within its own columns, stay within all of them. */
  lemma RunsIn(counts: Fields, tallies: Fields, snr: Fields, elevation: Fields, spread: set<string>)
    requires WritesIn(counts, {CountKeys.total, CountKeys.used, CountKeys.unused})
    requires WritesIn(tallies, spread)
    requires WritesIn(snr, NameSet(SnrNames)) && WritesIn(elevation, NameSet(ElevationNames))
    ensures WritesIn(counts + (tallies + snr + elevation), CountColumns + spread + StatColumns)
  {
    var cols := CountColumns + spread + StatColumns;
    WritesInMono(counts, CountColumns, cols);
    WritesInMono(tallies, spread, cols);
    WritesInMono(snr, NameSet(SnrNames), cols);
    WritesInMono(elevation, NameSet(ElevationNames), cols);
    WritesInConcat(tallies, snr, cols);
    WritesInConcat(tallies + snr, elevation, cols);
    WritesInConcat(counts, tallies + snr + elevation, cols);
  }

  /** What a run of assignments from an empty dictionary leaves has only keys the run writes. */
  lemma KeysIn(w: Fields, cols: set<string>)
    requires WritesIn(w, cols)
    ensures forall k :: k in Keys(PutAll([], w)) ==> k in cols
  {
    forall k | k in Keys(PutAll([], w))
      ensures k in cols
    {
      PutAllFromEmptyKeys(w, k);
      var i :| 0 <= i < |w| && Keys(w)[i] == k;
    }
  }

  /** Every key written in `w` ends in one of `cs`. */
  predicate KeysEndIn(w: Fields, cs: set<char>)
  {
    forall i :: 0 <= i < |w| ==> |w[i].0| > 0 && w[i].0[|w[i].0| - 1] in cs
  }

  predicate EndsIn(k: string, c: char)
  {
    |k| > 0 && k[|k| - 1] == c
  }

  lemma EndsWithSuffix(a: string, b: string)
    requires |b| > 0
    ensures EndsIn(a + b, b[|b| - 1])
  {
  }

  lemma KeysEndConcat(a: Fields, b: Fields, cs: set<char>)
    requires KeysEndIn(a, cs) && KeysEndIn(b, cs)
    ensures KeysEndIn(a + b, cs)
  {
  }

  lemma KeysEndMono(w: Fields, cs: set<char>, ds: set<char>)
    requires KeysEndIn(w, cs) && cs <= ds
    ensures KeysEndIn(w, ds)
  {
  }

  /** Per-constellation keys end in `_total`, `_used` or `_unused`. */
  lemma {:induction false} TallyKeysEnd(stats: Tallies)
    ensures KeysEndIn(TallyWrites(stats), {'l', 'd'})
  {
    if |stats| > 0 {
      var n := |stats| - 1;
      TallyKeysEnd(stats[..n]);
      var c := stats[n].0;
      EndsWithSuffix("satellites_" + c, "_total");
      EndsWithSuffix("satellites_" + c, "_used");
      EndsWithSuffix("satellites_" + c, "_unused");
      KeysEndConcat(TallyWrites(stats[..n]), ConstellationWrites(c, stats[n].1), {'l', 'd'});
    }
  }

  predicate NamesEndIn(names: StatNames, cs: set<char>)
  {
    |names.min| > 0 && names.min[|names.min| - 1] in cs && |names.max| > 0 && names.max[|names.max| - 1] in cs &&
    |names.avg| > 0 && names.avg[|names.avg| - 1] in cs && |names.median| > 0 && names.median[|names.median| - 1] in cs
  }

  lemma StatKeysEnd(names: StatNames, values: seq<real>, cs: set<char>)
    requires NamesEndIn(names, cs)
    ensures KeysEndIn(StatWrites(names, values), cs)
  {
    if |values| > 0 {
      var sorted := SortReals(values);
      StatRowEnd(names, Min(sorted), Max(sorted), Mean(sorted), Median(sorted), cs);
    }
  }

  lemma StatRowEnd(names: StatNames, min: real, max: real, avg: real, median: real, cs: set<char>)
    requires NamesEndIn(names, cs)
    ensures KeysEndIn(StatRow(names, min, max, avg, median), cs)
  {
  }

  /** The statistic names end in `_min`, `_max`, `_avg` or `_median`; the count names in `_count`. */
  lemma NameEndings()
    ensures NamesEndIn(SnrNames, {'n', 'x', 'g'}) && NamesEndIn(ElevationNames, {'n', 'x', 'g'})
    ensures EndsIn(CountKeys.total, 't') && EndsIn(CountKeys.used, 't') && EndsIn(CountKeys.unused, 't')
    ensures |CountKeys.total| == 22 && |CountKeys.used| == 21 && |CountKeys.unused| == 23
  {
  }

  /** In the three count assignments alone, each count name holds its count. */
  lemma CountRowGets(names: CountNames, total: int, used: int)
    requires |names.total| != |names.used| && |names.total| != |names.unused| && |names.used| != |names.unused|
    ensures LastGet(CountRow(names, total, used), names.total) == Some(Int(total))
    ensures LastGet(CountRow(names, total, used), names.used) == Some(Int(used))
    ensures LastGet(CountRow(names, total, used), names.unused) == Some(Int(total - used))
  {
    var w := CountRow(names, total, used);
    assert w[..2][..1] == w[..1];
    assert LastGet(w[..1], names.total) == Some(Int(total));
    assert LastGet(w[..2], names.total) == LastGet(w[..1], names.total);
    assert LastGet(w[..2], names.used) == Some(Int(used));
  }

  /** A name ending in a character no later assignment ends in keeps its last assignment. */
  lemma Survives(a: Fields, rest: Fields, k: string, ch: char, cs: set<char>)
    requires KeysEndIn(rest, cs) && EndsIn(k, ch) && ch !in cs
    ensures LastGet(a + rest, k) == LastGet(a, k)
  {
    LastGetUntouched(a, rest, k);
  }

  /** Starting from an empty dict, a written name holds its last assignment. */
  lemma FromEmpty(w: Fields, k: string)
    ensures Get(PutAll([], w), k) == LastGet(w, k)
  {
    PutAllFacts([], w);
  }

  /** The assignments after the counts only write names ending in `l`, `d`, `n`, `x` or `g`. */
  lemma AfterCounts(sats: seq<Value>)
    ensures KeysEndIn(Following(sats), {'l', 'd', 'n', 'x', 'g'})
  {
    var b := TallyWrites(TalliesOf(sats));
    var c, d := StatWrites(SnrNames, Readings(sats, true)), StatWrites(ElevationNames, Readings(sats, false));
    var cs := {'l', 'd', 'n', 'x', 'g'};
    NameEndings();
    TallyKeysEnd(TalliesOf(sats));
    KeysEndMono(b, {'l', 'd'}, cs);
    StatKeysEnd(SnrNames, Readings(sats, true), cs);
    StatKeysEnd(ElevationNames, Readings(sats, false), cs);
    KeysEndConcat(b, c, cs);
    KeysEndConcat(b + c, d, cs);
  }

  /** Three distinct count names ending in `ch`, followed by assignments whose names never end in `ch`. */
  lemma CountsKept(names: CountNames, total: int, used: int, rest: Fields, ch: char, cs: set<char>)
    requires |names.total| != |names.used| && |names.total| != |names.unused| && |names.used| != |names.unused|
    requires EndsIn(names.total, ch) && EndsIn(names.used, ch) && EndsIn(names.unused, ch)
    requires KeysEndIn(rest, cs) && ch !in cs
    ensures Get(PutAll([], CountRow(names, total, used) + rest), names.total) == Some(Int(total))
    ensures Get(PutAll([], CountRow(names, total, used) + rest), names.used) == Some(Int(used))
    ensures Get(PutAll([], CountRow(names, total, used) + rest), names.unused) == Some(Int(total - used))
  {
    var a := CountRow(names, total, used);
    CountRowGets(names, total, used);
    FromEmpty(a + rest, names.total);
    FromEmpty(a + rest, names.used);
    FromEmpty(a + rest, names.unused);
    Survives(a, rest, names.total, ch, cs);
    Survives(a, rest, names.used, ch, cs);
    Survives(a, rest, names.unused, ch, cs);
  }

  lemma CountsAhead(total: int, used: int, rest: Fields)
    requires KeysEndIn(rest, {'l', 'd', 'n', 'x', 'g'})
    ensures Get(PutAll([], CountRow(CountKeys, total, used) + rest), CountKeys.total) == Some(Int(total))
    ensures Get(PutAll([], CountRow(CountKeys, total, used) + rest), CountKeys.used) == Some(Int(used))
    ensures Get(PutAll([], CountRow(CountKeys, total, used) + rest), CountKeys.unused) == Some(Int(total - used))
  {
    NameEndings();
    CountsKept(CountKeys, total, used, rest, 't', {'l', 'd', 'n', 'x', 'g'});
  }

  /**
   * The aggregate of a non-empty list holds the satellite count `n`, the used
   * count `u` and their difference under the three count names: no later
   * assignment reuses those names.
   */
  lemma AggregateCounts(sats: seq<Value>, n: int, u: int)
    requires |sats| > 0 && n == |sats| && u == UsedCount(sats)
    ensures Get(Aggregate(sats), CountKeys.total) == Some(Int(n))
    ensures Get(Aggregate(sats), CountKeys.used) == Some(Int(u))
    ensures Get(Aggregate(sats), CountKeys.unused) == Some(Int(n - u))
  {
    AfterCounts(sats);
    CountsAhead(n, u, Following(sats));
  }

  lemma KeysConcatIn(a: Fields, b: Fields, k: string)
    ensures k in Keys(a + b) <==> k in Keys(a) || k in Keys(b)
  {
    assert Keys(a + b) == Keys(a) + Keys(b);
  }

  lemma AbsentByEnd(w: Fields, k: string, cs: set<char>)
    requires KeysEndIn(w, cs) && |k| > 0 && k[|k| - 1] !in cs
    ensures k !in Keys(w)
  {
  }

  lemma AbsentByWrites(w: Fields, k: string, cols: set<string>)
    requires WritesIn(w, cols) && k !in cols
    ensures k !in Keys(w)
  {
  }

  /** A statistic name is written exactly when its own kind kept a reading. */
  lemma StatRowKeys(names: StatNames, values: seq<real>, k: string)
    requires k in NameSet(names)
    ensures k in Keys(StatWrites(names, values)) <==> |values| > 0
  {
    if |values| > 0 {
      var sorted := SortReals(values);
      var w := StatRow(names, Min(sorted), Max(sorted), Mean(sorted), Median(sorted));
      assert Keys(w) == [names.min, names.max, names.avg, names.median];
    }
  }

  /** No statistic name of one kind is a statistic name of the other. */
  lemma NamesDisjoint()
    ensures NameSet(SnrNames) !! NameSet(ElevationNames)
  {
    assert forall k :: k in NameSet(SnrNames) ==> |k| <= 21;
    assert forall k :: k in NameSet(ElevationNames) ==> |k| >= 24;
  }

  /** Behind the counts: the tallies and the other kind's statistics never write a name of this kind. */
  lemma AmongTail(b: Fields, c: Fields, d: Fields, k: string, other: set<string>)
    requires KeysEndIn(b, {'l', 'd'}) && WritesIn(d, other)
    requires |k| > 0 && k[|k| - 1] != 'l' && k[|k| - 1] != 'd' && k !in other
    ensures k in Keys(b + c + d) <==> k in Keys(c)
  {
    KeysConcatIn(b + c, d, k);
    KeysConcatIn(b, c, k);
    AbsentByEnd(b, k, {'l', 'd'});
    AbsentByWrites(d, k, other);
  }

  /** The counts come first and never write a name that does not end in `t`. */
  lemma AmongHead(a: Fields, rest: Fields, k: string)
    requires KeysEndIn(a, {'t'}) && |k| > 0 && k[|k| - 1] != 't'
    ensures k in Keys(PutAll([], a + rest)) <==> k in Keys(rest)
  {
    AbsentByEnd(a, k, {'t'});
    AmongRest(a, rest, k);
  }

  /** A key the first run does not write is present exactly when the rest writes it. */
  lemma AmongRest(a: Fields, rest: Fields, k: string)
    requires k !in Keys(a)
    ensures k in Keys(PutAll([], a + rest)) <==> k in Keys(rest)
  {
    PutAllFromEmptyKeys(a + rest, k);
    KeysConcatIn(a, rest, k);
  }

  lemma CountRowEnds(names: CountNames, total: int, used: int)
    requires EndsIn(names.total, 't') && EndsIn(names.used, 't') && EndsIn(names.unused, 't')
    ensures KeysEndIn(CountRow(names, total, used), {'t'})
  {
  }

  lemma NameSetEnds(names: StatNames, k: string)
    requires NamesEndIn(names, {'n', 'x', 'g'}) && k in NameSet(names)
    ensures |k| > 0 && k[|k| - 1] in {'n', 'x', 'g'}
  {
  }

  /** What tells a statistic name apart from the other writes: its last letter and its kind. */
  lemma StatKeyFacts(k: string, mine: StatNames, other: StatNames)
    requires (mine == SnrNames && other == ElevationNames) || (mine == ElevationNames && other == SnrNames)
    requires k in NameSet(mine)
    ensures |k| > 0 && k[|k| - 1] != 'l' && k[|k| - 1] != 'd' && k[|k| - 1] != 't' && k !in NameSet(other)
  {
    NameEndings();
    NamesDisjoint();
    NameSetEnds(mine, k);
  }

  /** The fixed write runs of a non-empty list: counts ending in `t`, tallies in `l` or `d`, statistics within their names. */
  lemma RunFacts(sats: seq<Value>)
    requires |sats| > 0
    ensures KeysEndIn(CountRow(CountKeys, |sats|, UsedCount(sats)), {'t'})
    ensures KeysEndIn(TallyWrites(TalliesOf(sats)), {'l', 'd'})
    ensures WritesIn(StatWrites(SnrNames, Readings(sats, true)), NameSet(SnrNames))
    ensures WritesIn(StatWrites(ElevationNames, Readings(sats, false)), NameSet(ElevationNames))
  {
    NameEndings();
    CountRowEnds(CountKeys, |sats|, UsedCount(sats));
    TallyKeysEnd(TalliesOf(sats));
    StatWritesIn(SnrNames, Readings(sats, true));
    StatWritesIn(ElevationNames, Readings(sats, false));
  }

  /** The SNR statistics are in the aggregate of a non-empty list exactly when some SNR reading was kept. */
  lemma AggregateSnrStats(sats: seq<Value>, k: string)
    requires |sats| > 0 && k in NameSet(SnrNames)
    ensures k in Keys(Aggregate(sats)) <==> |Readings(sats, true)| > 0
  {
    var a := CountRow(CountKeys, |sats|, UsedCount(sats));
    var b := TallyWrites(TalliesOf(sats));
    var c := StatWrites(SnrNames, Readings(sats, true));
    var d := StatWrites(ElevationNames, Readings(sats, false));
    assert Aggregate(sats) == PutAll([], a + (b + c + d));
    RunFacts(sats);
    StatKeyFacts(k, SnrNames, ElevationNames);
    AmongHead(a, b + c + d, k);
    AmongTail(b, c, d, k, NameSet(ElevationNames));
    StatRowKeys(SnrNames, Readings(sats, true), k);
  }

  /** Behind the counts, the elevation statistics come last, after the tallies and the SNR statistics. */
  lemma AmongLast(b: Fields, c: Fields, d: Fields, k: string, other: set<string>)
    requires KeysEndIn(b, {'l', 'd'}) && WritesIn(c, other)
    requires |k| > 0 && k[|k| - 1] != 'l' && k[|k| - 1] != 'd' && k !in other
    ensures k in Keys(b + c + d) <==> k in Keys(d)
  {
    KeysConcatIn(b + c, d, k);
    KeysConcatIn(b, c, k);
    AbsentByEnd(b, k, {'l', 'd'});
    AbsentByWrites(c, k, other);
  }

  /** The elevation statistics are in the aggregate of a non-empty list exactly when some elevation was kept. */
  lemma AggregateElevationStats(sats: seq<Value>, k: string)
    requires |sats| > 0 && k in NameSet(ElevationNames)
    ensures k in Keys(Aggregate(sats)) <==> |Readings(sats, false)| > 0
  {
    var a := CountRow(CountKeys, |sats|, UsedCount(sats));
    var b := TallyWrites(TalliesOf(sats));
    var c := StatWrites(SnrNames, Readings(sats, true));
    var d := StatWrites(ElevationNames, Readings(sats, false));
    assert Aggregate(sats) == PutAll([], a + (b + c + d));
    RunFacts(sats);
    StatKeyFacts(k, ElevationNames, SnrNames);
    AmongHead(a, b + c + d, k);
    AmongLast(b, c, d, k, NameSet(SnrNames));
    StatRowKeys(ElevationNames, Readings(sats, false), k);
  }

  /** An empty satellite list aggregates to an empty dict. */
  lemma AggregateEmpty()
    ensures Aggregate([]) == []
  {
  }

  // ---------------------------------------------------------------------------
  // `_aggregate_satellite_data`, loop by loop.
  // ---------------------------------------------------------------------------

  /** The generator `sum(1 for sat in satellites if ...)`. */
  method CountUsed(sats: seq<Value>) returns (used: nat)
    ensures used == UsedCount(sats)
  {
    used := 0;
    for i := 0 to |sats|
      invariant used == UsedCount(sats[..i])
    {
      assert sats[..i + 1][..i] == sats[..i];
      if IsUsed(sats[i]) {
        used := used + 1;
      }
    }
    assert sats[..|sats|] == sats;
  }

  /** The loop filling `constellation_stats`. */
  method CountConstellations(sats: seq<Value>) returns (stats: Tallies)
    ensures stats == TalliesOf(sats)
  {
    stats := [];
    for i := 0 to |sats|
      invariant stats == TalliesOf(sats[..i])
    {
      var c := ConstellationOf(sats[i]);
      var isUsed := IsUsed(sats[i]);
      var t := GetOr(stats, c, Tally(0, 0, 0));
      if isUsed {
        t := t.(total := t.total + 1, used := t.used + 1);
      } else {
        t := t.(total := t.total + 1, unused := t.unused + 1);
      }
      assert t == Counted(GetOr(stats, c, Tally(0, 0, 0)), isUsed);
      TalliesStep(sats, i);
      stats := Put(stats, c, t);
    }
    assert sats[..|sats|] == sats;
  }

  lemma TalliesStep(sats: seq<Value>, i: nat)
    requires i < |sats|
    ensures TalliesOf(sats[..i + 1]) == Bump(TalliesOf(sats[..i]), ConstellationOf(sats[i]), IsUsed(sats[i]))
  {
    assert sats[..i + 1][..i] == sats[..i];
  }

  /** The loop assigning three counts per constellation. */
  method PutTallies(metrics: Fields, stats: Tallies) returns (r: Fields)
    ensures r == PutAll(metrics, TallyWrites(stats))
  {
    r := metrics;
    for i := 0 to |stats|
      invariant r == PutAll(metrics, TallyWrites(stats[..i]))
    {
      var (c, t) := stats[i];
      TallyStep(metrics, stats, i);
      r := Put(r, TotalKey(c), Int(t.total));
      r := Put(r, UsedKey(c), Int(t.used));
      r := Put(r, UnusedKey(c), Int(t.unused));
    }
    assert stats[..|stats|] == stats;
  }

  lemma TallyStep(metrics: Fields, stats: Tallies, i: nat)
    requires i < |stats|
    ensures var (c, t) := stats[i];
      PutAll(metrics, TallyWrites(stats[..i + 1])) ==
      Put(Put(Put(PutAll(metrics, TallyWrites(stats[..i])), TotalKey(c), Int(t.total)), UsedKey(c), Int(t.used)),
          UnusedKey(c), Int(t.unused))
  {
    assert stats[..i + 1][..i] == stats[..i];
    var (c, t) := stats[i];
    PutAllConcat(metrics, TallyWrites(stats[..i]), ConstellationWrites(c, t));
    PutAllThree(PutAll(metrics, TallyWrites(stats[..i])), TotalKey(c), Int(t.total), UsedKey(c), Int(t.used),
                UnusedKey(c), Int(t.unused));
  }

  /** The loop collecting `snr_values` (`snr` holds) or `elevation_values`. */
  method CollectReadings(sats: seq<Value>, snr: bool) returns (values: seq<real>)
    ensures values == Readings(sats, snr)
  {
    values := [];
    for i := 0 to |sats|
      invariant values == Readings(sats[..i], snr)
    {
      assert sats[..i + 1][..i] == sats[..i];
      var reading := Reading(sats[i], snr);
      if !reading.Null? {
        var f := FloatOf(reading);
        if f.Some? && f.value > -100.0 {
          values := values + [f.value];
        }
      }
    }
    assert sats[..|sats|] == sats;
  }

  /** The four statistics assignments, made only when some reading was kept. */
  method PutStats(metrics: Fields, names: StatNames, values: seq<real>) returns (r: Fields)
    ensures r == PutAll(metrics, StatWrites(names, values))
  {
    r := metrics;
    if |values| > 0 {
      var sorted := SortReals(values);
      r := Put(r, names.min, Num(Min(sorted)));
      r := Put(r, names.max, Num(Max(sorted)));
      r := Put(r, names.avg, Num(Mean(sorted)));
      r := Put(r, names.median, Num(Median(sorted)));
      StatStep(metrics, names, values);
    }
  }

  lemma StatStep(metrics: Fields, names: StatNames, values: seq<real>)
    requires |values| > 0
    ensures var sorted := SortReals(values);
      PutAll(metrics, StatWrites(names, values)) ==
      Put(Put(Put(Put(metrics, names.min, Num(Min(sorted))), names.max, Num(Max(sorted))),
              names.avg, Num(Mean(sorted))), names.median, Num(Median(sorted)))
  {
    var sorted := SortReals(values);
    PutAllFour(metrics, names.min, Num(Min(sorted)), names.max, Num(Max(sorted)),
               names.avg, Num(Mean(sorted)), names.median, Num(Median(sorted)));
  }

  /** The three overall count assignments. */
  method PutCounts(metrics: Fields, names: CountNames, total: int, used: int) returns (r: Fields)
    ensures r == PutAll(metrics, CountRow(names, total, used))
  {
    r := Put(metrics, names.total, Int(total));
    r := Put(r, names.used, Int(used));
    r := Put(r, names.unused, Int(total - used));
    CountStep(metrics, names, total, used);
  }

  /**
   * `_aggregate_satellite_data(satellites)`: the dict it returns is the one the
   * assignments `AggregateWrites` lists build, one after another.
   */
  method AggregateSatelliteData(sats: seq<Value>) returns (metrics: Fields)
    requires SatellitesOk(sats)
    ensures metrics == Aggregate(sats)
  {
    if |sats| == 0 {
      AggregateEmpty();
      return [];
    }
    var used := CountUsed(sats);
    metrics := PutCounts([], CountKeys, |sats|, used);
    var stats := CountConstellations(sats);
    metrics := PutTallies(metrics, stats);
    var snr := CollectReadings(sats, true);
    metrics := PutStats(metrics, SnrNames, snr);
    var elevation := CollectReadings(sats, false);
    metrics := PutStats(metrics, ElevationNames, elevation);
    AggregateSteps(sats, used, stats, snr, elevation);
  }

  lemma CountStep(d: Fields, names: CountNames, total: int, used: int)
    ensures PutAll(d, CountRow(names, total, used)) ==
      Put(Put(Put(d, names.total, Int(total)), names.used, Int(used)), names.unused, Int(total - used))
  {
    PutAllThree(d, names.total, Int(total), names.used, Int(used), names.unused, Int(total - used));
  }

  lemma AggregateSteps(sats: seq<Value>, used: int, stats: Tallies, snr: seq<real>, elevation: seq<real>)
    requires |sats| > 0 && used == UsedCount(sats) && stats == TalliesOf(sats)
    requires snr == Readings(sats, true) && elevation == Readings(sats, false)
    ensures Aggregate(sats) ==
      PutAll(PutAll(PutAll(PutAll([], CountRow(CountKeys, |sats|, used)), TallyWrites(stats)),
                    StatWrites(SnrNames, snr)), StatWrites(ElevationNames, elevation))
  {
    var a, b := CountRow(CountKeys, |sats|, used), TallyWrites(stats);
    var c, d := StatWrites(SnrNames, snr), StatWrites(ElevationNames, elevation);
    PutAllConcat([], a, b + c + d);
    PutAllConcat(PutAll([], a), b + c, d);
    PutAllConcat(PutAll([], a), b, c);
  }


}
