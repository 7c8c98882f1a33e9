/**
 * `GnssInfoParser.parse`: the whole record of one capture, assembled from the
 * section extractors and put in its fixed key order.
 */
module InfoParser {
  import opened Common
  import opened Json
  import opened GnssState
  import opened GnssLocation
  import opened Device
  import opened Tables
  import BaseParser

  const Version: string := "1.3.0"

  /** The order `parse` asks `reorder_json` for; no record holds "metadata" at this point. */
  const ParseOrder: seq<string> := [
    "metadata", "main", "show_version", "show_inventory", "gnss_state", "gnss_postprocessor",
    "cisco_gnss", "last_location_acquired", "satellites", "raw_data"]

  /** The keys of every record `parse` returns, in order. */
  const RecordKeys: seq<string> := [
    "main", "show_version", "show_inventory", "gnss_state", "gnss_postprocessor",
    "cisco_gnss", "last_location_acquired", "satellites", "raw_data"]

  /** The keys of the dict `parse` assembles, in the order it assigns them. */
  const AssembledKeys: seq<string> := [
    "raw_data", "satellites", "main", "show_version", "gnss_state", "gnss_postprocessor",
    "cisco_gnss", "last_location_acquired", "show_inventory"]

  /** A list of satellites as a JSON list of objects. */
  function SatelliteList(sats: seq<Fields>): (r: Value)
    ensures r.Arr? && |r.items| == |sats|
    ensures forall i :: 0 <= i < |sats| ==> r.items[i] == Obj(sats[i])
  {
    Arr(seq(|sats|, i requires 0 <= i < |sats| => Obj(sats[i])))
  }

  /** `not gnss_state["no_gnss_detected"]`: the state section reports a receiver. */
  predicate FoundReceiver(state: Fields)
  {
    !Truthy(Field(state, "no_gnss_detected"))
  }

  /** The nine sections, in record order. */
  function Sections(main: Value, version: Value, inventory: Value, state: Value, pp: Value,
                    cisco: Value, last: Value, satellites: Value, raw: Value): (r: Fields)
    ensures Keys(r) == RecordKeys && UniqueKeys(r)
    ensures Get(r, "main") == Some(main) && Get(r, "show_version") == Some(version)
    ensures Get(r, "show_inventory") == Some(inventory) && Get(r, "gnss_state") == Some(state)
    ensures Get(r, "gnss_postprocessor") == Some(pp) && Get(r, "cisco_gnss") == Some(cisco)
    ensures Get(r, "last_location_acquired") == Some(last)
    ensures Get(r, "satellites") == Some(satellites) && Get(r, "raw_data") == Some(raw)
  {
    var r := [
      ("main", main), ("show_version", version), ("show_inventory", inventory),
      ("gnss_state", state), ("gnss_postprocessor", pp), ("cisco_gnss", cisco),
      ("last_location_acquired", last), ("satellites", satellites), ("raw_data", raw)];
    RecordKeysDistinct();
    KeyedBy(r, RecordKeys);
    assert Get(r, RecordKeys[3]) == Some(r[3].1) && Get(r, RecordKeys[4]) == Some(r[4].1);
    assert Get(r, RecordKeys[5]) == Some(r[5].1) && Get(r, RecordKeys[6]) == Some(r[6].1);
    assert Get(r, RecordKeys[7]) == Some(r[7].1) && Get(r, RecordKeys[8]) == Some(r[8].1);
    r
  }

  lemma RecordKeysDistinct()
    ensures forall i, j :: 0 <= i < j < |RecordKeys| ==> RecordKeys[i] != RecordKeys[j]
  {
  }

  /** A list whose keys are given distinct keys has those keys, each once, each with its own value. */
  lemma KeyedBy(r: Fields, keys: seq<string>)
    requires |r| == |keys| && forall i :: 0 <= i < |r| ==> r[i].0 == keys[i]
    requires forall i, j :: 0 <= i < j < |keys| ==> keys[i] != keys[j]
    ensures Keys(r) == keys && UniqueKeys(r)
    ensures forall j :: 0 <= j < |r| ==> Get(r, keys[j]) == Some(r[j].1)
  {
    forall j | 0 <= j < |r| ensures Get(r, keys[j]) == Some(r[j].1) {
      GetIndex(r, j);
    }
  }

  /**
   * The record `parse` returns for a capture, or the `ValueError` a failed
   * number in a state group raises; its properties are the lemmas below.
   */
  function Record(content: string, apAddress: string): Result<Fields>
  {
    RecordOf(StateMetrics(content), MainMetrics(content, apAddress), VersionMetrics(content),
             InventoryMetrics(content), LocationMetrics(PostProcessor, content),
             LocationMetrics(CiscoGnss, content), LocationMetrics(LastLocation, content),
             SatelliteTable(content, InfoSystems, true), RawData(content))
  }

  /** The record for given extractor results: the state section's error, or the nine sections. */
  function RecordOf(state: Result<Fields>, main: Fields, version: Fields, inventory: Fields, pp: Fields,
                    cisco: Fields, last: Fields, satellites: seq<Fields>, raw: Fields): Result<Fields>
  {
    match state
    case Failure(e) => Failure(e)
    case Success(s) => Success(SectionsFor(s, main, version, inventory, pp, cisco, last, satellites, raw))
  }

  /** A state section that raised makes the whole record that error, whatever the other sections hold. */
  lemma FailedRecord(e: string, main: Fields, version: Fields, inventory: Fields, pp: Fields,
                     cisco: Fields, last: Fields, satellites: seq<Fields>, raw: Fields)
    ensures RecordOf(Failure(e), main, version, inventory, pp, cisco, last, satellites, raw) == Failure(e)
  {
  }

  /** A state section that parsed gives the nine sections built from it. */
  lemma BuiltRecord(s: Fields, main: Fields, version: Fields, inventory: Fields, pp: Fields,
                    cisco: Fields, last: Fields, satellites: seq<Fields>, raw: Fields)
    ensures RecordOf(Success(s), main, version, inventory, pp, cisco, last, satellites, raw) ==
            Success(SectionsFor(s, main, version, inventory, pp, cisco, last, satellites, raw))
  {
  }

  /** The nine sections; the satellites and the raw data only when the state section reports a receiver. */
  function SectionsFor(state: Fields, main: Fields, version: Fields, inventory: Fields, pp: Fields,
                       cisco: Fields, last: Fields, satellites: seq<Fields>, raw: Fields): Fields
  {
    Sections(Obj(main), Obj(version), Obj(inventory), Obj(state), Obj(pp), Obj(cisco), Obj(last),
             if FoundReceiver(state) then SatelliteList(satellites) else Arr([]),
             if FoundReceiver(state) then Obj(raw) else Obj([]))
  }

  /** Section contents with the key lists `mk` … `lk` make a record with the nine keys, in order, and those sections. */
  lemma RecordOfShape(state: Result<Fields>, main: Fields, version: Fields, inventory: Fields, pp: Fields,
                      cisco: Fields, last: Fields, satellites: seq<Fields>, raw: Fields,
                      mk: seq<string>, vk: seq<string>, ik: seq<string>, sk: seq<string>, pk: seq<string>,
                      ck: seq<string>, lk: seq<string>)
    requires KeyedSections(state, main, version, inventory, pp, cisco, last, mk, vk, ik, sk, pk, ck, lk)
    ensures RecordKeyed(RecordOf(state, main, version, inventory, pp, cisco, last, satellites, raw), state,
                        mk, vk, ik, sk, pk, ck, lk)
  {
  }

  /** The section contents have the key lists `mk` … `lk`; the state section only when it did not fail. */
  predicate KeyedSections(state: Result<Fields>, main: Fields, version: Fields, inventory: Fields, pp: Fields,
                          cisco: Fields, last: Fields, mk: seq<string>, vk: seq<string>, ik: seq<string>,
                          sk: seq<string>, pk: seq<string>, ck: seq<string>, lk: seq<string>)
  {
    SectionKeyList(state, main, version, inventory, pp, cisco, last, mk, vk, ik, sk, pk, ck, lk) == true
  }

  /** One atom for the prover: the seven key lists. */
  function SectionKeyList(state: Result<Fields>, main: Fields, version: Fields, inventory: Fields, pp: Fields,
                          cisco: Fields, last: Fields, mk: seq<string>, vk: seq<string>, ik: seq<string>,
                          sk: seq<string>, pk: seq<string>, ck: seq<string>, lk: seq<string>): bool
  {
    (state.Success? ==> Keys(state.value) == sk) && Keys(main) == mk && Keys(version) == vk &&
    Keys(inventory) == ik && Keys(pp) == pk && Keys(cisco) == ck && Keys(last) == lk
  }

  /** Every extractor of a capture returns its default's keys, in the default's order. */
  lemma ExtractorKeys(content: string, apAddress: string)
    ensures KeyedSections(StateMetrics(content), MainMetrics(content, apAddress), VersionMetrics(content),
                          InventoryMetrics(content), LocationMetrics(PostProcessor, content),
                          LocationMetrics(CiscoGnss, content), LocationMetrics(LastLocation, content),
                          MainKeys, VersionKeys, InventoryKeys, StateKeys, LocationKeys(PostProcessor),
                          LocationKeys(CiscoGnss), LocationKeys(LastLocation))
  {
    StateMetricsSchema(content);
  }

  /**
   * A capture yields a record unless its state section fails; every record
   * has the same nine sections in the same order, and each section has
   * every key of its default, in the default's order.
   */
  lemma RecordShape(content: string, apAddress: string)
    ensures RecordShaped(Record(content, apAddress), StateMetrics(content))
  {
    ExtractorKeys(content, apAddress);
    RecordOfShape(StateMetrics(content), MainMetrics(content, apAddress), VersionMetrics(content),
                  InventoryMetrics(content), LocationMetrics(PostProcessor, content),
                  LocationMetrics(CiscoGnss, content), LocationMetrics(LastLocation, content),
                  SatelliteTable(content, InfoSystems, true), RawData(content), MainKeys, VersionKeys,
                  InventoryKeys, StateKeys, LocationKeys(PostProcessor), LocationKeys(CiscoGnss),
                  LocationKeys(LastLocation));
  }

  /** `r` fails exactly when `state` does, and otherwise has the nine keys in order, each section keyed as its default. */
  predicate RecordShaped(r: Result<Fields>, state: Result<Fields>)
  {
    RecordKeyed(r, state, MainKeys, VersionKeys, InventoryKeys, StateKeys, LocationKeys(PostProcessor),
                LocationKeys(CiscoGnss), LocationKeys(LastLocation))
  }

  /** `r` fails exactly when `state` does, and otherwise has the nine keys in order, its sections keyed `mk` … `lk`. */
  predicate RecordKeyed(r: Result<Fields>, state: Result<Fields>, mk: seq<string>, vk: seq<string>, ik: seq<string>,
                        sk: seq<string>, pk: seq<string>, ck: seq<string>, lk: seq<string>)
  {
    (r.Failure? <==> state.Failure?) &&
    (r.Success? ==> Keys(r.value) == RecordKeys && UniqueKeys(r.value) && SectionsKeyed(r.value, mk, vk, ik, sk, pk, ck, lk))
  }

  /** A state section that reports no receiver leaves the satellites and the raw data empty. */
  lemma NotFoundEmpty(state: Result<Fields>, main: Fields, version: Fields, inventory: Fields, pp: Fields,
                      cisco: Fields, last: Fields, satellites: seq<Fields>, raw: Fields)
    requires state.Success? && StateSchema(state, true)
    ensures RecordEmpty(RecordOf(state, main, version, inventory, pp, cisco, last, satellites, raw))
  {
  }

  /** Without a receiver the satellites and the raw data stay empty. */
  lemma RecordNoGnss(content: string, apAddress: string)
    requires NoGnssDetected(content)
    ensures RecordEmpty(Record(content, apAddress))
  {
    StateMetricsNoGnss(content);
    StateMetricsSchema(content);
    NotFoundEmpty(StateMetrics(content), MainMetrics(content, apAddress), VersionMetrics(content),
                  InventoryMetrics(content), LocationMetrics(PostProcessor, content),
                  LocationMetrics(CiscoGnss, content), LocationMetrics(LastLocation, content),
                  SatelliteTable(content, InfoSystems, true), RawData(content));
  }

  /** `r` is a record whose satellites and raw data are empty. */
  predicate RecordEmpty(r: Result<Fields>)
  {
    r.Success? && Get(r.value, "satellites") == Some(Arr([])) && Get(r.value, "raw_data") == Some(Obj([]))
  }

  /** The section `k` of a record is an object with exactly the keys `keys`. */
  predicate SectionHas(d: Fields, k: string, keys: seq<string>)
  {
    var v := Get(d, k);
    v.Some? && v.value.Obj? && Keys(v.value.fields) == keys
  }

  /** The seven object sections of `d`, in record order, have the key lists `mk` … `lk`. */
  predicate SectionsKeyed(d: Fields, mk: seq<string>, vk: seq<string>, ik: seq<string>, sk: seq<string>,
                          pk: seq<string>, ck: seq<string>, lk: seq<string>)
  {
    SectionHas(d, "main", mk) && SectionHas(d, "show_version", vk) && SectionHas(d, "show_inventory", ik) &&
    SectionHas(d, "gnss_state", sk) && SectionHas(d, "gnss_postprocessor", pk) && SectionHas(d, "cisco_gnss", ck) &&
    SectionHas(d, "last_location_acquired", lk)
  }

  /** The dict `parse` starts from. */
  const Initial: Fields := [("raw_data", Obj([])), ("satellites", Arr([]))]

  /** A dict with the assembled keys, in the assembled order. */
  predicate AssembledShape(d: Fields)
  {
    AssembledKeysAt(d) == true
  }

  /** One atom for the prover: the nine keys, position by position. */
  function AssembledKeysAt(d: Fields): bool
  {
    |d| == 9 && d[0].0 == "raw_data" && d[1].0 == "satellites" && d[2].0 == "main" && d[3].0 == "show_version" &&
    d[4].0 == "gnss_state" && d[5].0 == "gnss_postprocessor" && d[6].0 == "cisco_gnss" &&
    d[7].0 == "last_location_acquired" && d[8].0 == "show_inventory"
  }

  /** The seven section assignments append seven new keys after the two initial ones. */
  lemma AssignSections(main: Value, version: Value, state: Value, pp: Value, cisco: Value,
                       last: Value, inventory: Value)
    ensures var d := PutAll(Initial, SectionWrites(main, version, state, pp, cisco, last, inventory));
      AssembledShape(d) && d[0].1 == Obj([]) && d[1].1 == Arr([]) && d[2].1 == main && d[3].1 == version &&
      d[4].1 == state && d[5].1 == pp && d[6].1 == cisco && d[7].1 == last && d[8].1 == inventory
  {
    var all := Initial + SectionWrites(main, version, state, pp, cisco, last, inventory);
    AssembledKeyFacts(all);
    PutAllFresh(Initial, SectionWrites(main, version, state, pp, cisco, last, inventory));
  }

  /** Assigning the satellites and the raw data replaces the first two entries in place. */
  lemma AssignFound(d: Fields, satellites: Value, raw: Value)
    requires AssembledShape(d)
    ensures var d' := Put(Put(d, "satellites", satellites), "raw_data", raw);
      AssembledShape(d') && d'[0].1 == raw && d'[1].1 == satellites &&
      forall j :: 2 <= j < |d| ==> d'[j] == d[j]
  {
    PutAt(d, 1, "satellites", satellites);
    PutAt(d[1 := ("satellites", satellites)], 0, "raw_data", raw);
  }

  /** The seven section assignments of `parse`, in its order. */
  function SectionWrites(main: Value, version: Value, state: Value, pp: Value, cisco: Value,
                         last: Value, inventory: Value): Fields
  {
    [("main", main), ("show_version", version), ("gnss_state", state), ("gnss_postprocessor", pp),
     ("cisco_gnss", cisco), ("last_location_acquired", last), ("show_inventory", inventory)]
  }

  lemma AssembledRecordKeys()
    ensures forall k :: k in AssembledKeys <==> k in RecordKeys
  {
  }

  /**
   * `reorder_json` of an assembled dict is the record holding the same nine
   * values: the assembled keys, reordered, each with its value.
   */
  lemma Reordered(result: Fields, ordered: Fields, main: Value, version: Value, state: Value, pp: Value,
                  cisco: Value, last: Value, inventory: Value, satellites: Value, raw: Value)
    requires AssembledShape(result)
    requires result[0].1 == raw && result[1].1 == satellites && result[2].1 == main
    requires result[3].1 == version && result[4].1 == state && result[5].1 == pp
    requires result[6].1 == cisco && result[7].1 == last && result[8].1 == inventory
    requires Keys(ordered) == BaseParser.OrderedPresent(ParseOrder, Keys(result)) + BaseParser.Unlisted(Keys(result), ParseOrder)
    requires UniqueKeys(ordered) && forall k :: Get(ordered, k) == Get(result, k)
    ensures ordered == Sections(main, version, inventory, state, pp, cisco, last, satellites, raw)
  {
    var expected := Sections(main, version, inventory, state, pp, cisco, last, satellites, raw);
    AssembledGets(result, expected);
    AssembledOrder();
    SameEntries(ordered, expected);
  }

  /** An assembled dict agrees with any record-keyed dict that holds its nine values. */
  lemma AssembledGets(result: Fields, expected: Fields)
    requires AssembledShape(result) && Keys(expected) == RecordKeys
    requires Get(expected, "raw_data") == Some(result[0].1) && Get(expected, "satellites") == Some(result[1].1)
    requires Get(expected, "main") == Some(result[2].1) && Get(expected, "show_version") == Some(result[3].1)
    requires Get(expected, "gnss_state") == Some(result[4].1) && Get(expected, "gnss_postprocessor") == Some(result[5].1)
    requires Get(expected, "cisco_gnss") == Some(result[6].1)
    requires Get(expected, "last_location_acquired") == Some(result[7].1)
    requires Get(expected, "show_inventory") == Some(result[8].1)
    ensures Keys(result) == AssembledKeys && UniqueKeys(result)
    ensures forall k :: Get(result, k) == Get(expected, k)
  {
    AssembledKeyFacts(result);
    AssembledRecordKeys();
    NineGets(result, expected);
    SameGets(result, expected);
  }

  /** Nine entries found one by one in `expected` are all found there. */
  lemma NineGets(result: Fields, expected: Fields)
    requires |result| == 9
    requires Get(expected, result[0].0) == Some(result[0].1) && Get(expected, result[1].0) == Some(result[1].1)
    requires Get(expected, result[2].0) == Some(result[2].1) && Get(expected, result[3].0) == Some(result[3].1)
    requires Get(expected, result[4].0) == Some(result[4].1) && Get(expected, result[5].0) == Some(result[5].1)
    requires Get(expected, result[6].0) == Some(result[6].1) && Get(expected, result[7].0) == Some(result[7].1)
    requires Get(expected, result[8].0) == Some(result[8].1)
    ensures forall j :: 0 <= j < |result| ==> Get(expected, result[j].0) == Some(result[j].1)
  {
    forall j | 0 <= j < |result| ensures Get(expected, result[j].0) == Some(result[j].1) {
      if j < 3 {
        assert j == 0 || j == 1 || j == 2;
      } else if j < 6 {
        assert j == 3 || j == 4 || j == 5;
      } else {
        assert j == 6 || j == 7 || j == 8;
      }
    }
  }

  lemma AssembledKeyFacts(result: Fields)
    requires AssembledShape(result)
    ensures Keys(result) == AssembledKeys && UniqueKeys(result)
  {
    assert Keys(result) == [result[0].0, result[1].0, result[2].0, result[3].0, result[4].0, result[5].0,
                            result[6].0, result[7].0, result[8].0];
  }

  /** `reorder_json` turns the assembled order into the record order and adds nothing. */
  lemma AssembledOrder()
    ensures BaseParser.OrderedPresent(ParseOrder, AssembledKeys) == RecordKeys
    ensures BaseParser.Unlisted(AssembledKeys, ParseOrder) == []
  {
    RecordKeysDistinct();
    assert ParseOrder[1..] == RecordKeys;
    assert forall i :: 1 <= i < |ParseOrder| ==> ParseOrder[i] in AssembledKeys;
    BaseParser.OrderedPresentSuffix(ParseOrder, AssembledKeys, 1);
    BaseParser.UnlistedNone(AssembledKeys, ParseOrder);
  }

  /**
   * `parse`: the main and state sections first, then the rest of the record,
   * unless the state section raised, in which case nothing is returned.
   */
  method Parse(content: string, apAddress: string) returns (r: Result<Fields>)
    ensures r == Record(content, apAddress)
  {
    var main, state := ExtractGnssMetrics(content, apAddress);
    r := Assemble(content, main, state);
  }

  /**
   * The rest of `parse` once the main and state sections are known: the
   * `ValueError` the state section raised, or each remaining section as its
   * extractor returns it, put together by `Build`.
   */
  method Assemble(content: string, main: Fields, state: Result<Fields>) returns (r: Result<Fields>)
    ensures r == RecordOf(state, main, VersionMetrics(content), InventoryMetrics(content),
                          LocationMetrics(PostProcessor, content), LocationMetrics(CiscoGnss, content),
                          LocationMetrics(LastLocation, content), SatelliteTable(content, InfoSystems, true),
                          RawData(content))
  {
    match state
    case Failure(e) =>
      r := Failure(e);
      FailedRecord(e, main, VersionMetrics(content), InventoryMetrics(content),
                   LocationMetrics(PostProcessor, content), LocationMetrics(CiscoGnss, content),
                   LocationMetrics(LastLocation, content), SatelliteTable(content, InfoSystems, true),
                   RawData(content));
    case Success(s) =>
      var version := ExtractVersion(content);
      var pp := ExtractLocation(PostProcessor, content);
      var cisco := ExtractLocation(CiscoGnss, content);
      var last := ExtractLocation(LastLocation, content);
      var inventory := ExtractInventory(content);
      var d := Build(content, main, version, s, pp, cisco, last, inventory);
      r := Success(d);
      BuiltRecord(s, main, version, inventory, pp, cisco, last,
                  SatelliteTable(content, InfoSystems, true), RawData(content));
  }

  /**
   * The dict `parse` builds from the section results: empty satellites and
   * raw data, the seven sections in turn, the satellites and raw data when the
   * state section reports a receiver, and finally `reorder_json`.
   */
  method Build(content: string, main: Fields, version: Fields, state: Fields, pp: Fields, cisco: Fields,
               last: Fields, inventory: Fields) returns (ordered: Fields)
    ensures ordered == SectionsFor(state, main, version, inventory, pp, cisco, last,
                                   SatelliteTable(content, InfoSystems, true), RawData(content))
  {
    var result := Initial;
    // The seven section assignments, one after another.
    result := PutAll(result, SectionWrites(Obj(main), Obj(version), Obj(state), Obj(pp), Obj(cisco),
                                           Obj(last), Obj(inventory)));
    AssignSections(Obj(main), Obj(version), Obj(state), Obj(pp), Obj(cisco), Obj(last), Obj(inventory));
    var satellites: Value := Arr([]);
    var raw: Value := Obj([]);
    if FoundReceiver(state) {
      var table := ExtractSatellites(content, InfoSystems, true);
      var data := ExtractRawData(content);
      satellites, raw := SatelliteList(table), Obj(data);
      AssignFound(result, satellites, raw);
      result := Put(result, "satellites", satellites);
      result := Put(result, "raw_data", raw);
    }
    AssembledKeyFacts(result);
    ordered := BaseParser.ReorderJson(result, ParseOrder);
    Reordered(result, ordered, Obj(main), Obj(version), Obj(state), Obj(pp), Obj(cisco), Obj(last), Obj(inventory),
              satellites, raw);
  }
}
