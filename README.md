# ap-gnss-stats, modelled in Dafny

ap-gnss-stats collects the output of `show gnss info`, `show version`,
`show inventory`, `show clock` and `show capwap client configuration` from
Cisco access points. Each transcript becomes one JSON record with a fixed
shape. Batches of records are flattened into CSV rows and pushed to
Prometheus. This project models the parsing and flattening core of the
repository and proves properties of it.

What the model covers, one module per component:

- **Records as values.** `Json.Value` is Null, Bool, Int, Num (a real),
  Str, Obj or Arr. A Python dict is an association list that keeps
  insertion order: assigning to an existing key replaces the value in place,
  and assigning to a new key appends it.
- **Regular expressions.** `Scan` and the per-module matchers replace the
  regex engine. Each pattern is a hand-written recogniser for the one shape
  it accepts. `SearchFrom` gives the leftmost match, as `re.search` does.
- **`GnssInfoParser.parse`.** It builds the fixed nine-section record. The
  main and receiver-state sections, with AP-name truncation recovery and
  the "No GNSS detected" short cut, are in `GnssState`. The three location
  sections are in `GnssLocation`, the version and inventory sections in
  `Device`, and the satellite table and raw key/value pairs in `Tables`.
  The record's assembly and key order are in `InfoParser`.
- **The CSV exporter.** `CsvColumns` builds the sorted column set.
  `SatelliteStats` computes the satellite counts and the SNR and elevation
  statistics. `CsvRows` formats values and flattens each record into a row.
  `CsvExport` makes the append-or-overwrite decision. `Ordering` defines
  Python's string and number orders used for sorting.
- **The CAPWAP configuration parser** (`CapwapConfig`): a section
  extractor, a main-settings loop, a slot state machine with subsections,
  and value normalisation.
- **Shared helpers.** `BaseParser` has `convert_to_bool`,
  `extract_with_pattern` and `reorder_json`. `Utils` holds the file-name
  heuristics and file bucketing.
- **Pure rules of the Prometheus exporter and the SSH collector**
  (`Prometheus`, `Collector`).
- **The older stand-alone readers:** `parse_gnss_log` (`GnssLog`),
  `tools/gnss_gatherer.py` (`Gatherer`), `lib/parser.py` (`LegacyParser`)
  and `parse_logs.generate_output_filename` (`ParseLogs`).

The code is followed where it differs from its own comments or
documentation:

- `tools/gnss_gatherer.py:122` overwrites the fix fields on every main line
  that contains `Fix:`. That covers `ValidFix: true` (`Gatherer.ValidFixLine`)
  but not `LastFixTime:`, which does not contain `Fix:`.
- In append mode, the exporter's `csv.DictWriter` raises when an aggregate
  key is missing from the existing header. The export then returns False
  after writing the rows before it (`CsvExport.AppendNewSatellitesFails`).
  It does not silently drop the key.
- An open subsection of a CAPWAP slot is discarded by a shallower key
  line, as the code has it (`CapwapConfig.SubsectionDiscarded`).

Loops and in-place updates in the source are methods here: the pattern-table
loops, the satellite-table and key/value loops, the column builders,
`_flatten_ap_data`, the aggregation loops, the CAPWAP line loops, the
gatherer's line loop, and the bucketing loop. Each method's `ensures` ties
its result to a specification function, and the properties are proved as
lemmas about those functions.

## Model

| member | source | states |
|---|---|---|
| BaseParser.ConvertToBool | ap_gnss_stats/lib/parsers/base_parser.py:16-26 | true exactly when the text is "true" in any letter case |
| BaseParser.ExtractWithPattern | ap_gnss_stats/lib/parsers/base_parser.py:28-50 | no match gives `default`; a match gives the stripped capture, or `conversion` applied to it when one is given |
| BaseParser.ExtractedText | ap_gnss_stats/lib/parsers/base_parser.py:46-49 | without a conversion the result is a piece of the capture that stripping again leaves unchanged |
| BaseParser.CopyListed | ap_gnss_stats/lib/parsers/base_parser.py:76-79 | the first loop copies the keys of `order` that are present, in `order`'s order, with their values, skipping absent ones |
| BaseParser.AppendUnlisted | ap_gnss_stats/lib/parsers/base_parser.py:81-84 | the second loop appends every key `order` does not name, in insertion order, keeping every value |
| BaseParser.ReorderJson | ap_gnss_stats/lib/parsers/base_parser.py:63-86 | keys are the present listed keys in listed order followed by the unlisted keys in original order; every key keeps its value and none repeats, so the result is a permutation of the input |
| BaseParser.OrderedPresentMembers | ap_gnss_stats/lib/parsers/base_parser.py:77-79 | a key is listed first iff it is both named in `order` and present |
| BaseParser.UnlistedMembers | ap_gnss_stats/lib/parsers/base_parser.py:82-84 | a key follows iff it is present and not named in `order` |
| BaseParser.OrderedPresentSuffix | ap_gnss_stats/lib/parsers/base_parser.py:77-79 | with distinct names of which the first m are absent, the listed part is `order[m..]` |
| BaseParser.UnlistedNone | ap_gnss_stats/lib/parsers/base_parser.py:82-84 | when `order` names every key, nothing follows the listed part |
| InfoParser.SatelliteList | ap_gnss_stats/lib/parsers/gnss_info_parser.py:57 | the satellites section is a JSON list holding each parsed satellite, in table order |
| InfoParser.Sections | ap_gnss_stats/lib/parsers/gnss_info_parser.py:63-74 | a record holds exactly the nine section keys, each once, in the order `parse` asks `reorder_json` for, each with its own section |
| InfoParser.RecordKeysDistinct | ap_gnss_stats/lib/parsers/gnss_info_parser.py:63-74 | the nine record keys are pairwise distinct |
| InfoParser.ExtractorKeys | ap_gnss_stats/lib/parsers/gnss_info_parser.py:301-458 | every section extractor returns exactly its default's keys, in the default's order (the state section unless it raised) |
| InfoParser.RecordShape | ap_gnss_stats/lib/parsers/gnss_info_parser.py:27-76 | `parse` fails exactly when the state section raises; otherwise the record has the nine sections in order and each section holds every key of its default |
| InfoParser.NotFoundEmpty | ap_gnss_stats/lib/parsers/gnss_info_parser.py:55-60 | a state section reporting no receiver leaves the satellites an empty list and the raw data an empty dict |
| InfoParser.RecordNoGnss | ap_gnss_stats/lib/parsers/gnss_info_parser.py:126-131 | a capture with "No GNSS detected" after `show gnss info` yields a record with no satellites and no raw data |
| InfoParser.AssignSections | ap_gnss_stats/lib/parsers/gnss_info_parser.py:37-52 | the seven section assignments add seven new keys after `raw_data` and `satellites`, keeping those two first |
| InfoParser.AssignFound | ap_gnss_stats/lib/parsers/gnss_info_parser.py:55-60 | assigning the satellites and the raw data replaces the two first entries in place and changes nothing else |
| InfoParser.Reordered | ap_gnss_stats/lib/parsers/gnss_info_parser.py:63-74 | `reorder_json` of the assembled dict is the record holding the same nine values under the same keys |
| InfoParser.AssembledGets | ap_gnss_stats/lib/parsers/gnss_info_parser.py:37-60 | the assembled dict has its nine distinct keys and agrees key by key with any record holding its values |
| InfoParser.AssembledOrder | ap_gnss_stats/lib/parsers/gnss_info_parser.py:63-74 | the order list puts the assembled keys in record order and leaves no key unlisted; `metadata` is absent and skipped |
| InfoParser.Parse | ap_gnss_stats/lib/parsers/gnss_info_parser.py:27-76 | `parse` computes the main and state sections, then the record (or the state section's ValueError) |
| InfoParser.Assemble | ap_gnss_stats/lib/parsers/gnss_info_parser.py:43-53 | after the main and state sections, each remaining section is its extractor's result, or the state section's ValueError propagates |
| InfoParser.FailedRecord | ap_gnss_stats/lib/parsers/gnss_info_parser.py:43 | a state section that raised makes the whole result that error, whatever the other sections hold |
| InfoParser.BuiltRecord | ap_gnss_stats/lib/parsers/gnss_info_parser.py:43-53 | a state section that parsed gives the nine sections built from it and the other extractors' results |
| InfoParser.Build | ap_gnss_stats/lib/parsers/gnss_info_parser.py:37-76 | the built and reordered dict is the nine sections, with satellites and raw data only when a receiver is reported |
| GnssState.DefaultMain | ap_gnss_stats/lib/parsers/gnss_info_parser.py:301-310 | the main section starts with exactly its default keys, in order |
| GnssState.DefaultStateShape | ap_gnss_stats/lib/parsers/gnss_info_parser.py:312-347 | the state section starts with its default keys, `no_gnss_detected` false and every other field None |
| GnssState.PromptShowFrom | ap_gnss_stats/lib/parsers/gnss_info_parser.py:236-237 | the prompt capture before `#show ` is non-empty and holds no '#' and no line break |
| GnssState.PreferFull | ap_gnss_stats/lib/parsers/gnss_info_parser.py:256-266 | a suspected truncated name is replaced only by a longer hostname entry that starts with the name minus its last segment |
| GnssState.Cap32 | ap_gnss_stats/lib/parsers/gnss_info_parser.py:268-270 | the name is cut to its first 32 characters; a shorter name is kept whole, an empty one stays empty |
| GnssState.ExtractApName | ap_gnss_stats/lib/parsers/gnss_info_parser.py:224-272 | the AP name has at most 32 characters, and is empty when no prompt precedes `#show ` |
| GnssState.ExtractApNameFound | ap_gnss_stats/lib/parsers/gnss_info_parser.py:238-271 | with a prompt found, the name is the capped hostname entry exactly when that entry replaces the stripped prompt, otherwise the capped stripped prompt; empty exactly when the prompt strips to nothing |
| GnssState.RecoverApName | ap_gnss_stats/lib/parsers/gnss_info_parser.py:102-115 | the name changes exactly when an AP address is given and its first dotted piece replaces the truncated name, and then becomes that piece |
| GnssState.RecoverApNameIdempotent | ap_gnss_stats/lib/parsers/gnss_info_parser.py:102-115 | recovering a recovered name changes nothing more |
| GnssState.ShowClockTime | ap_gnss_stats/lib/parsers/gnss_info_parser.py:274-299 | the clock time is the stripped text after `show clock` and '*', when present; always one stripped line |
| GnssState.FirstStarLine | ap_gnss_stats/lib/parsers/gnss_info_parser.py:294-298 | the first line starting with '*' in the clock block, without its stars, stripped |
| GnssState.MainMetrics | ap_gnss_stats/lib/parsers/gnss_info_parser.py:88-123 | the main section keeps its default keys; the AP name and the clock time are set only when non-empty |
| GnssState.StateStart | ap_gnss_stats/lib/parsers/gnss_info_parser.py:134-141 | the state section starts at the first exact `GnssState:`, and only without one at a case-insensitive match |
| GnssState.Convert | ap_gnss_stats/lib/parsers/gnss_info_parser.py:201-220 | each pattern's capture is converted as its key demands: bool, float or int, keeping the text when the number does not parse |
| GnssState.FloatsOf | ap_gnss_stats/lib/parsers/gnss_info_parser.py:175-191 | a group converts only when `float()` accepts every capture, each converted in order |
| GnssState.GroupWrites | ap_gnss_stats/lib/parsers/gnss_info_parser.py:175-191 | a matching group writes all its keys as numbers, a missing group writes nothing |
| GnssState.GroupsWritesFail | ap_gnss_stats/lib/parsers/gnss_info_parser.py:172-198 | the group assignments raise exactly when a matching group holds a capture `float()` rejects |
| GnssState.StateWrites | ap_gnss_stats/lib/parsers/gnss_info_parser.py:172-220 | the state assignments fail exactly when a group does |
| GnssState.TableWritesLast | ap_gnss_stats/lib/parsers/gnss_info_parser.py:200-220 | with distinct keys, each pattern's key ends with that pattern's own capture |
| GnssState.StateMetricsSchema | ap_gnss_stats/lib/parsers/gnss_info_parser.py:125-222 | a state section that does not fail has exactly the default keys and the no-GNSS flag the capture shows |
| GnssState.StateMetricsNoGnss | ap_gnss_stats/lib/parsers/gnss_info_parser.py:129-131 | with "No GNSS detected" every field but the flag stays None |
| GnssState.StateMetricsFails | ap_gnss_stats/lib/parsers/gnss_info_parser.py:172-198 | the state section fails exactly when a GNSS receiver is reported, the section is found and one of its groups fails |
| GnssState.PatternKeysInSchema | ap_gnss_stats/lib/parsers/gnss_info_parser.py:152-169 | every pattern key is a state field, not the flag and not a group key |
| GnssState.StateKeysDistinct | ap_gnss_stats/lib/parsers/gnss_info_parser.py:312-347 | the state section's keys are distinct |
| GnssState.StatePatternField | ap_gnss_stats/lib/parsers/gnss_info_parser.py:200-220 | each pattern field holds its converted first match in the state section, or None without one |
| GnssState.GroupFieldMeaning | ap_gnss_stats/lib/parsers/gnss_info_parser.py:172-198 | a group field is None exactly when its group does not match, and otherwise `float()` of its own capture |
| GnssState.DopFieldsTogether | ap_gnss_stats/lib/parsers/gnss_info_parser.py:180-191 | the seven DOP fields are all None or all numbers |
| GnssState.StateGroupField | ap_gnss_stats/lib/parsers/gnss_info_parser.py:172-198 | in a state section that did not fail, each group field holds its group's converted capture, or None without a match |
| GnssState.ApplyStateWrites | ap_gnss_stats/lib/parsers/gnss_info_parser.py:172-220 | the assignments made from the section, or the group's ValueError |
| GnssState.ApplyPatterns | ap_gnss_stats/lib/parsers/gnss_info_parser.py:200-220 | the loop over the pattern table assigns every matching pattern's converted capture, in table order |
| GnssState.ExtractGnssMetrics | ap_gnss_stats/lib/parsers/gnss_info_parser.py:78-222 | `_extract_gnss_metrics` returns the main and the state sections |
| GnssLocation.DefaultLocation | ap_gnss_stats/lib/parsers/gnss_info_parser.py:349-368 | a location section starts with every key of its default, in order: the two flags false and every other field None |
| GnssLocation.FieldValue | ap_gnss_stats/lib/parsers/gnss_info_parser.py:657-663 | a single field stores only a number: `float()` of its first match, nothing when `float()` rejects it |
| GnssLocation.FloatPrefix | ap_gnss_stats/lib/parsers/gnss_info_parser.py:668-672 | the assignments inside one `try` are the captures up to the first one `float()` rejects, each converted, under its key in order |
| GnssLocation.GroupAssign | ap_gnss_stats/lib/parsers/gnss_info_parser.py:666-683 | a group assigns a prefix of its keys, in order, each a number, and nothing when its pattern does not match |
| GnssLocation.Derivation | ap_gnss_stats/lib/parsers/gnss_info_parser.py:833-840 | only the derivation fields of the last-location section store text |
| GnssLocation.LocationMetrics | ap_gnss_stats/lib/parsers/gnss_info_parser.py:613-685 | an extracted location section has exactly its default's keys, in the default's order |
| GnssLocation.LocationWritesKeys | ap_gnss_stats/lib/parsers/gnss_info_parser.py:649-683 | the extractors assign only their own section's fields and never a flag |
| GnssLocation.ExtractedGet | ap_gnss_stats/lib/parsers/gnss_info_parser.py:649-683 | each field holds its default or the value of its last assignment |
| GnssLocation.LocationFlags | ap_gnss_stats/lib/parsers/gnss_info_parser.py:624-635 | the found flag is set exactly when the heading occurs (any case); not-available exactly when `heading N/A` occurs too |
| GnssLocation.LocationEmpty | ap_gnss_stats/lib/parsers/gnss_info_parser.py:626-635 | a missing or not-available section holds None in every field besides its flags |
| GnssLocation.LocationValuesTyped | ap_gnss_stats/lib/parsers/gnss_info_parser.py:657-683 | every numeric field holds None or a number, never a rejected capture; the derivation fields hold None or text |
| GnssLocation.GroupPrefix | ap_gnss_stats/lib/parsers/gnss_info_parser.py:665-683 | hDOP holds a number only with the horizontal accuracy; the minor axis only with the major one; the orientation only with the minor axis |
| GnssLocation.FixFieldValue | ap_gnss_stats/lib/parsers/gnss_info_parser.py:649-663 | in a found, available section each single field holds `float()` of its first match within the section, or None |
| GnssLocation.FieldWritesUnset | ap_gnss_stats/lib/parsers/gnss_info_parser.py:657-663 | a key that no field of the list names is never assigned |
| GnssLocation.FieldWritesAppend | ap_gnss_stats/lib/parsers/gnss_info_parser.py:649-663 | the loop over two field lists in turn does what each does one after the other |
| GnssLocation.ApplyFixFields | ap_gnss_stats/lib/parsers/gnss_info_parser.py:657-663 | the loop over the field table assigns each matching, converting field in table order |
| GnssLocation.ExtractSection | ap_gnss_stats/lib/parsers/gnss_info_parser.py:637-685 | the assignments made from the section's text, in source order |
| GnssLocation.ExtractLocation | ap_gnss_stats/lib/parsers/gnss_info_parser.py:613-685 | the three location extractors compute the extracted section |
| Device.TextValue | ap_gnss_stats/lib/parsers/gnss_info_parser.py:527-586 | a field's stored value is stripped one-line text |
| Device.TextWrites | ap_gnss_stats/lib/parsers/gnss_info_parser.py:527-586 | a field table writes only stripped one-line text, and only under its own keys |
| Device.TextWritesLast | ap_gnss_stats/lib/parsers/gnss_info_parser.py:527-586 | with distinct keys, each entry's key ends with that entry's own match |
| Device.TextWritesUnset | ap_gnss_stats/lib/parsers/gnss_info_parser.py:583-586 | a key the table does not name is never assigned |
| Device.ApplyTextFields | ap_gnss_stats/lib/parsers/gnss_info_parser.py:527-586 | the loop over a field table assigns each matching field its stripped text, in table order |
| Device.DefaultVersion | ap_gnss_stats/lib/parsers/gnss_info_parser.py:414-434 | the `show version` defaults have exactly the schema keys, each None |
| Device.UptimeFrom | ap_gnss_stats/lib/parsers/gnss_info_parser.py:563 | the lazy name before " uptime is" lies on one line |
| Device.UptimeWrites | ap_gnss_stats/lib/parsers/gnss_info_parser.py:563-571 | the uptime line writes nothing, or the name as text and three ints in that order |
| Device.ParseIntDigits | ap_gnss_stats/lib/parsers/gnss_info_parser.py:566-571 | `int()` of a digit run never raises, so the `except` is never taken |
| Device.ImageAt | ap_gnss_stats/lib/parsers/gnss_info_parser.py:589 | a matched image line has the two characters after its `)` in the text |
| Device.ImageWrites | ap_gnss_stats/lib/parsers/gnss_info_parser.py:588-594 | the image line writes family and string together; the family is stripped, the string is the rest of that line after "), " stripped |
| Device.ReasonAt | ap_gnss_stats/lib/parsers/gnss_info_parser.py:597-599 | the reload-reason capture lies on one line and starts with a non-space character |
| Device.ReasonWrite | ap_gnss_stats/lib/parsers/gnss_info_parser.py:600-609 | the reload reason is None for a bare label or empty value, otherwise the unstripped text after the colon |
| Device.VersionMetrics | ap_gnss_stats/lib/parsers/gnss_info_parser.py:539-611 | the result has exactly the schema keys, and is the defaults when no section is found |
| Device.UptimeTogether | ap_gnss_stats/lib/parsers/gnss_info_parser.py:563-571 | the name and the three uptime numbers are all None, or a text and three ints |
| Device.ReasonShape | ap_gnss_stats/lib/parsers/gnss_info_parser.py:596-609 | the reload reason is None, or a non-empty one-line text starting with a non-space character |
| Device.VersionFieldValue | ap_gnss_stats/lib/parsers/gnss_info_parser.py:574-586 | each labelled field holds its stripped first match, or None |
| Device.ExtractVersion | ap_gnss_stats/lib/parsers/gnss_info_parser.py:539-611 | the method returns `VersionMetrics(content)` |
| Device.DefaultInventory | ap_gnss_stats/lib/parsers/gnss_info_parser.py:436-458 | the `show inventory` defaults have exactly the schema keys, not found, every other field None |
| Device.FoundKeyFirst | ap_gnss_stats/lib/parsers/gnss_info_parser.py:436-458 | the found flag is the first key and no other |
| Device.InvCommandFrom | ap_gnss_stats/lib/parsers/gnss_info_parser.py:473 | the command match ends inside the text |
| Device.AfterCommand | ap_gnss_stats/lib/parsers/gnss_info_parser.py:483-493 | the section after the command is a slice of the text that never holds the next prompt line, and is cut at 2000 characters only when the prompt does not come back |
| Device.InvStarAt | ap_gnss_stats/lib/parsers/gnss_info_parser.py:476-478 | the asterisk-form capture is non-empty and holds no following `*****` line |
| Device.UntilComma | ap_gnss_stats/lib/parsers/gnss_info_parser.py:498-504 | a `[^,]+` capture ends at a comma and holds none |
| Device.NameDescrAt | ap_gnss_stats/lib/parsers/gnss_info_parser.py:498 | the description lies on one line |
| Device.PidVidSnAt | ap_gnss_stats/lib/parsers/gnss_info_parser.py:504 | the serial number lies on one line |
| Device.NameDescrWrites | ap_gnss_stats/lib/parsers/gnss_info_parser.py:497-501 | type and description are written together, both stripped text |
| Device.PidVidSnWrites | ap_gnss_stats/lib/parsers/gnss_info_parser.py:503-508 | product id, version id and serial are written together, all stripped text |
| Device.InventoryMetrics | ap_gnss_stats/lib/parsers/gnss_info_parser.py:460-537 | the result has exactly the schema keys, and is the defaults when no section is found |
| Device.InventoryFound | ap_gnss_stats/lib/parsers/gnss_info_parser.py:474-495 | `inv_parser_found` is true exactly when a section was found |
| Device.InventoryTogether | ap_gnss_stats/lib/parsers/gnss_info_parser.py:497-508 | the type/description pair and the pid/vid/serial triple are each all None or all stripped text |
| Device.InventoryTexts | ap_gnss_stats/lib/parsers/gnss_info_parser.py:497-530 | every inventory field but the flag holds None or stripped text |
| Device.InventoryFieldValue | ap_gnss_stats/lib/parsers/gnss_info_parser.py:510-530 | each DEVID or USB field holds its stripped first match, or None |
| Device.ExtractInventory | ap_gnss_stats/lib/parsers/gnss_info_parser.py:460-537 | the method returns `InventoryMetrics(content)` |
| Device.ApplyInventoryFields | ap_gnss_stats/lib/parsers/gnss_info_parser.py:497-530 | the field assignments of a section, in source order |
| Device.ApplyNameDescr | ap_gnss_stats/lib/parsers/gnss_info_parser.py:498-501 | the NAME/DESCR pair is stored together when the line matches |
| Device.ApplyPidVidSn | ap_gnss_stats/lib/parsers/gnss_info_parser.py:504-508 | the PID/VID/SN triple is stored together when the line matches |
| Tables.WsSplitTokens | ap_gnss_stats/lib/parsers/gnss_info_parser.py:861 | splitting a stripped line on whitespace runs yields its tokens |
| Tables.CellCases | ap_gnss_stats/lib/parsers/gnss_info_parser.py:879-887 | a cell is an int exactly when all digits, a float exactly when otherwise only digits and dots that `float()` accepts, and else its text |
| Tables.CellNat | ap_gnss_stats/lib/parsers/gnss_info_parser.py:880-881 | a cell holding a decimal natural number is that number |
| Tables.CellWritesAt | ap_gnss_stats/lib/parsers/gnss_info_parser.py:876-887 | the row assigns, for each column after the first, the lower-cased header with its cell, in column order |
| Tables.SatelliteRow | ap_gnss_stats/lib/parsers/gnss_info_parser.py:873-887 | a satellite starts with `constellation` and has distinct keys |
| Tables.SatelliteRowCell | ap_gnss_stats/lib/parsers/gnss_info_parser.py:876-887 | each column's lower-cased header holds that column's cell, for a header no later column repeats |
| Tables.SatelliteRowConstellation | ap_gnss_stats/lib/parsers/gnss_info_parser.py:873 | `constellation` holds the line's first token |
| Tables.BuildSatellite | ap_gnss_stats/lib/parsers/gnss_info_parser.py:873-887 | the loop over the columns builds the satellite row |
| Tables.SystemLine | ap_gnss_stats/lib/parsers/gnss_info_parser.py:870 | a satellite line starts, upper-cased, with one of the system names |
| Tables.SatelliteTable | ap_gnss_stats/lib/parsers/gnss_info_parser.py:853-894 | no `Const.` heading means no satellites; at most 49 lines are scanned, so at most 49 satellites |
| Tables.ScanEnd | ap_gnss_stats/lib/parsers/gnss_info_parser.py:864-892 | the scan ends at the first line that stops the table, or at the line limit |
| Tables.LineKinds | ap_gnss_stats/lib/parsers/gnss_info_parser.py:865-892 | a blank line is skipped; a system line is a row candidate; any other line stops the scan when it starts with '=' or holds `example-` |
| Tables.SatellitesSkip | ap_gnss_stats/lib/parsers/gnss_info_parser.py:866-867 | a blank line, a short system line or another non-stopping line adds no satellite |
| Tables.SatellitesStop | ap_gnss_stats/lib/parsers/gnss_info_parser.py:890-892 | a stopping line ends the table |
| Tables.SatellitesRow | ap_gnss_stats/lib/parsers/gnss_info_parser.py:870-889 | a system line with at least five tokens adds its row, in line order |
| Tables.SatellitesFromOrigin | ap_gnss_stats/lib/parsers/gnss_info_parser.py:864-892 | every satellite is the row of a system line with at least five tokens, before the line that stops the scan |
| Tables.ExtractSatellites | ap_gnss_stats/lib/parsers/gnss_info_parser.py:844-894 | `_extract_satellite_data` returns the satellite table |
| Tables.ScanTable | ap_gnss_stats/lib/parsers/gnss_info_parser.py:864-892 | the loop over the table lines returns the rows the table definition gives |
| Tables.ScanLine | ap_gnss_stats/lib/parsers/gnss_info_parser.py:865-892 | one line of the loop: stop, skip, or add its row |
| Tables.ChainEnd | ap_gnss_stats/lib/parsers/gnss_info_parser.py:908 | a greedy word chain ends on a class character and cannot be extended across spaces |
| Tables.ValueEnd | ap_gnss_stats/lib/parsers/gnss_info_parser.py:908 | a value match starts and ends on a non-space character |
| Tables.KvAt | ap_gnss_stats/lib/parsers/gnss_info_parser.py:908 | a key/value match ends after its start, within the text |
| Tables.KvKeyEdged | ap_gnss_stats/lib/parsers/gnss_info_parser.py:908 | a matched key starts and ends on a word character |
| Tables.RawDataLastWins | ap_gnss_stats/lib/parsers/gnss_info_parser.py:905-926 | the raw data has distinct keys, in first-assignment order, each holding its last assignment |
| Tables.ExtractRawData | ap_gnss_stats/lib/parsers/gnss_info_parser.py:896-926 | the loop over the key/value matches builds the raw data |
| Tables.RawKeyNoSpace | ap_gnss_stats/lib/parsers/gnss_info_parser.py:911 | a raw key holds no space |
| Tables.RawValueInt | ap_gnss_stats/lib/parsers/gnss_info_parser.py:918-922 | a decimal integer value is stored as that int |
| CapwapConfig.NormalizeValue | ap_gnss_stats/lib/parsers/capwap_config_parser.py:208-235 | the result is a bool, int, float or text; True iff the stripped text lower-cases to true/yes/enabled, False iff to false/no/disabled; an int iff the stripped text is digits with an optional leading minus |
| CapwapConfig.NormalizeInt | ap_gnss_stats/lib/parsers/capwap_config_parser.py:229-230 | an int result is what `int()` makes of the text |
| CapwapConfig.NormalizeFloat | ap_gnss_stats/lib/parsers/capwap_config_parser.py:231-235 | a float result is what `float()` makes of the text; a text result is the stripped text, which `float()` refuses |
| CapwapConfig.NormalizeStrip | ap_gnss_stats/lib/parsers/capwap_config_parser.py:218 | normalising ignores surrounding whitespace |
| CapwapConfig.NormalizeTextStable | ap_gnss_stats/lib/parsers/capwap_config_parser.py:208-235 | a value that stays text normalises to itself again |
| CapwapConfig.NormalizeIntText | ap_gnss_stats/lib/parsers/capwap_config_parser.py:229-230 | the decimal text of an int normalises back to that int |
| CapwapConfig.NormalizeBoolText | ap_gnss_stats/lib/parsers/capwap_config_parser.py:221-224 | "True"/"False" normalise back to the bool |
| CapwapConfig.WordsNotDigits | ap_gnss_stats/lib/parsers/capwap_config_parser.py:221-230 | no boolean word is a signed run of digits, so the tests' order never matters for them |
| CapwapConfig.KeyName | ap_gnss_stats/lib/parsers/capwap_config_parser.py:121-182 | a key as written has no space and no upper-case letter |
| CapwapConfig.SectionEnd | ap_gnss_stats/lib/parsers/capwap_config_parser.py:78 | the lazy capture stops at the first `\n<word>#` prompt ahead, or at the end |
| CapwapConfig.ExtractSection | ap_gnss_stats/lib/parsers/capwap_config_parser.py:67-83 | the section is stripped, and "" when the command does not occur |
| CapwapConfig.SectionIsCapture | ap_gnss_stats/lib/parsers/capwap_config_parser.py:78-82 | the section is the lazy capture after the first occurrence of the command and its whitespace |
| CapwapConfig.SectionAfterCommand | ap_gnss_stats/lib/parsers/capwap_config_parser.py:78-82 | a non-empty section is text of the output that follows the first occurrence of the command |
| CapwapConfig.SectionStopsAtPrompt | ap_gnss_stats/lib/parsers/capwap_config_parser.py:78 | no prompt line lies inside the section |
| CapwapConfig.MainPair | ap_gnss_stats/lib/parsers/capwap_config_parser.py:98-122 | a key/value line needs a colon |
| CapwapConfig.MainStep | ap_gnss_stats/lib/parsers/capwap_config_parser.py:105-126 | one more line extends the settings by that line's assignment, a repeated key overwriting the earlier one |
| CapwapConfig.ExtractMainConfig | ap_gnss_stats/lib/parsers/capwap_config_parser.py:85-128 | the line loop builds `MainConfig(section)` |
| CapwapConfig.MainConfigEntries | ap_gnss_stats/lib/parsers/capwap_config_parser.py:119-126 | every top-level key is lower case without spaces and every value is a bool, int, float or text |
| CapwapConfig.MainIgnoresSlotLines | ap_gnss_stats/lib/parsers/capwap_config_parser.py:106-116 | blank lines, lines starting "Slot" and lines indented by 4 spaces never reach the top-level settings |
| CapwapConfig.SlotHeader | ap_gnss_stats/lib/parsers/capwap_config_parser.py:147 | a `Slot N Config:` header has digits for N |
| CapwapConfig.NextSlot | ap_gnss_stats/lib/parsers/capwap_config_parser.py:147 | a slot's lazy body holds no header before it stops |
| CapwapConfig.SlotMatchesAllHeaders | ap_gnss_stats/lib/parsers/capwap_config_parser.py:147-150 | the matches carry the numbers of every `Slot N Config:` header, in text order |
| CapwapConfig.SlotBodiesHaveNoHeader | ap_gnss_stats/lib/parsers/capwap_config_parser.py:147 | no slot's body holds a header |
| CapwapConfig.HeaderName | ap_gnss_stats/lib/parsers/capwap_config_parser.py:168 | a subsection header has no colon in its name and is indented |
| CapwapConfig.SlotPair | ap_gnss_stats/lib/parsers/capwap_config_parser.py:180 | an indented key/value line has no colon in its key |
| CapwapConfig.ExtractSlotConfig | ap_gnss_stats/lib/parsers/capwap_config_parser.py:155-198 | the inner line loop builds `SlotConfig(body)` |
| CapwapConfig.SlotConfigEntries | ap_gnss_stats/lib/parsers/capwap_config_parser.py:168-198 | every slot setting has a normalised key and is a scalar or a non-empty subsection of scalars |
| CapwapConfig.HeaderLine | ap_gnss_stats/lib/parsers/capwap_config_parser.py:168-177 | a `Name:` line stores any open non-empty subsection and opens a new, empty one |
| CapwapConfig.NestedLine | ap_gnss_stats/lib/parsers/capwap_config_parser.py:186-188 | a line indented by 6 or more inside an open subsection goes into it |
| CapwapConfig.ShallowLine | ap_gnss_stats/lib/parsers/capwap_config_parser.py:189-194 | a key line outside a subsection, or too shallow for it, is a slot setting and closes the subsection |
| CapwapConfig.SubsectionKeptAtEnd | ap_gnss_stats/lib/parsers/capwap_config_parser.py:196-198 | a subsection still open at the end of the slot is kept under its name |
| CapwapConfig.SubsectionKeptAtHeader | ap_gnss_stats/lib/parsers/capwap_config_parser.py:169-173 | a subsection closed by the next header is kept under its name |
| CapwapConfig.SubsectionDiscarded | ap_gnss_stats/lib/parsers/capwap_config_parser.py:189-194 | a shallower key line after an open subsection drops the subsection's entries and writes only its own key |
| CapwapConfig.SlotEntriesAt | ap_gnss_stats/lib/parsers/capwap_config_parser.py:200-204 | slot entry i is built from match i |
| CapwapConfig.ExtractSlotConfigs | ap_gnss_stats/lib/parsers/capwap_config_parser.py:130-206 | the match loop builds `Slots(section)` |
| CapwapConfig.SlotsNumbered | ap_gnss_stats/lib/parsers/capwap_config_parser.py:147-204 | slot i carries the number of the i-th header and that slot's configuration |
| CapwapConfig.Parse | ap_gnss_stats/lib/parsers/capwap_config_parser.py:32-65 | `parse` returns `CapwapRecord(content)` |
| CapwapConfig.RecordNoSection | ap_gnss_stats/lib/parsers/capwap_config_parser.py:46-48 | without the command's output the result is exactly `{"show_capwap_client_config": {}}` |
| CapwapConfig.RecordNested | ap_gnss_stats/lib/parsers/capwap_config_parser.py:51-63 | "slots" holds the slot list, overriding a top-level key of that name, and every other key is a top-level setting |
| CapwapConfig.RecordFeedsCsv | ap_gnss_stats/lib/parsers/capwap_config_parser.py:55-63 | the parser's result always has the shape the CSV exporter accepts |
| CsvColumns.GetSatelliteColumnNames | ap_gnss_stats/lib/exporters/csv_exporter.py:292-332 | the two loops build exactly `SatelliteColumns(sats)` |
| CsvColumns.SatelliteColumnsMembers | ap_gnss_stats/lib/exporters/csv_exporter.py:302-330 | a name is a satellite column iff it is one of the 3 count names, one of the 8 SNR/elevation statistic names, or a total/used/unused column of the lower-cased constellation of some satellite; the list length plays no part and an empty list keeps the 11 fixed names |
| CsvColumns.SlotColumnsMembers | ap_gnss_stats/lib/exporters/csv_exporter.py:271-289 | `{parent}_slots_count` is always present; any other slot column is `{parent}_slot{n}_{key}` for a key of a slot whose configuration is a non-empty dict, and every such name is present |
| CsvColumns.SlotColumnsEmptyConfig | ap_gnss_stats/lib/exporters/csv_exporter.py:279-282 | a slot whose configuration is empty or missing adds no column |
| CsvColumns.ExtractSlotsColumnNames | ap_gnss_stats/lib/exporters/csv_exporter.py:260-289 | the slot loop builds exactly `SlotColumns(parent, slots)` |
| CsvColumns.AddPrefixedKeys | ap_gnss_stats/lib/exporters/csv_exporter.py:285-287 | the inner loop adds `prefix + key` for every configuration key and nothing else |
| CsvColumns.DictColumnNames | ap_gnss_stats/lib/exporters/csv_exporter.py:241-252 | a dict section adds `{section}_{key}` per entry, or the slot columns for a list under "slots" |
| CsvColumns.ExtractColumnNames | ap_gnss_stats/lib/exporters/csv_exporter.py:219-257 | the section loop builds exactly `ColumnsOf(d)`: satellite columns, `raw_` keys, flattened dict keys or the bare section name |
| CsvColumns.ColumnUnionMembers | ap_gnss_stats/lib/exporters/csv_exporter.py:209-213 | a name is a batch column iff some section of some record contributes it |
| CsvColumns.GetAllColumnNames | ap_gnss_stats/lib/exporters/csv_exporter.py:199-216 | the column list is strictly ascending (so duplicate-free), holds exactly the union of every record's columns, and is the unique such list |
| SatelliteStats.UsedCount | ap_gnss_stats/lib/exporters/csv_exporter.py:437 | the used count never exceeds the number of satellites |
| SatelliteStats.CountUsed | ap_gnss_stats/lib/exporters/csv_exporter.py:437 | the generator counts exactly the satellites whose `used` lower-cases to "yes" (`UsedCount`) |
| SatelliteStats.TalliesBalanced | ap_gnss_stats/lib/exporters/csv_exporter.py:445-457 | in every constellation's tally, used + unused = total |
| SatelliteStats.TalliesSums | ap_gnss_stats/lib/exporters/csv_exporter.py:445-457 | the per-constellation totals sum to the number of satellites, the used counts to the overall used count and the unused counts to the rest |
| SatelliteStats.TalliesKeys | ap_gnss_stats/lib/exporters/csv_exporter.py:445-451 | the tallied constellations are exactly the distinct lower-cased constellations, each once |
| SatelliteStats.BumpSums | ap_gnss_stats/lib/exporters/csv_exporter.py:453-457 | counting one satellite adds one to the total sum and one to either the used or the unused sum |
| SatelliteStats.TotalPut | ap_gnss_stats/lib/exporters/csv_exporter.py:453-457 | replacing one constellation's tally changes a sum by the difference |
| SatelliteStats.CountConstellations | ap_gnss_stats/lib/exporters/csv_exporter.py:445-457 | the constellation loop builds exactly `TalliesOf(sats)` |
| SatelliteStats.PutTallies | ap_gnss_stats/lib/exporters/csv_exporter.py:459-462 | the loop makes the three per-constellation assignments in tally order |
| SatelliteStats.Readings | ap_gnss_stats/lib/exporters/csv_exporter.py:465-475 | every kept reading is above -100 |
| SatelliteStats.CollectReadings | ap_gnss_stats/lib/exporters/csv_exporter.py:465-495 | the loop keeps exactly `Readings(sats, snr)`: the first truthy snr/cn0/cno (or elev/elevation) field, when convertible and above -100 |
| SatelliteStats.MedianBounds | ap_gnss_stats/lib/exporters/csv_exporter.py:507-521 | the median of a sorted non-empty list lies between its first and last values |
| SatelliteStats.MeanBounds | ap_gnss_stats/lib/exporters/csv_exporter.py:481 | the mean lies between the least and the greatest reading |
| SatelliteStats.StatsOrdered | ap_gnss_stats/lib/exporters/csv_exporter.py:477-482 | after sorting, min <= median <= max and min <= mean <= max; min and max are readings and bound every reading |
| SatelliteStats.SortedMin | ap_gnss_stats/lib/exporters/csv_exporter.py:478-479 | in a sorted list the minimum is the first element |
| SatelliteStats.SortedMax | ap_gnss_stats/lib/exporters/csv_exporter.py:478-480 | in a sorted list the maximum is the last element |
| SatelliteStats.StatStep | ap_gnss_stats/lib/exporters/csv_exporter.py:477-482 | the four statistics assignments of a non-empty list: min, max, mean and median of the sorted readings |
| SatelliteStats.PutStats | ap_gnss_stats/lib/exporters/csv_exporter.py:477-502 | the statistics are assigned only when some reading was kept |
| SatelliteStats.PutCounts | ap_gnss_stats/lib/exporters/csv_exporter.py:440-442 | the three count assignments: total, used and total - used |
| SatelliteStats.AggregateSatelliteData | ap_gnss_stats/lib/exporters/csv_exporter.py:420-504 | the method returns `Aggregate(sats)`, the dict its assignments build in order |
| SatelliteStats.AggregateSteps | ap_gnss_stats/lib/exporters/csv_exporter.py:433-504 | for a non-empty list the aggregate is the counts, then the tallies, then the SNR and elevation statistics, assigned in that order |
| SatelliteStats.AggregateEmpty | ap_gnss_stats/lib/exporters/csv_exporter.py:430-431 | an empty satellite list aggregates to an empty dict |
| SatelliteStats.AggregateCounts | ap_gnss_stats/lib/exporters/csv_exporter.py:436-442 | the aggregate of a non-empty list holds the satellite count, the used count and their difference under the three count names |
| SatelliteStats.AggregateSnrStats | ap_gnss_stats/lib/exporters/csv_exporter.py:477-482 | an SNR statistic name is in the aggregate iff some SNR reading was kept |
| SatelliteStats.AggregateElevationStats | ap_gnss_stats/lib/exporters/csv_exporter.py:497-502 | an elevation statistic name is in the aggregate iff some elevation was kept |
| SatelliteStats.StatRowKeys | ap_gnss_stats/lib/exporters/csv_exporter.py:477-482 | a statistic name is written exactly when its kind kept a reading |
| SatelliteStats.AggregateKeysInColumns | ap_gnss_stats/lib/exporters/csv_exporter.py:292-332 | every aggregate key is a satellite column of the same list |
| Ordering.BelowIrreflexive | ap_gnss_stats/lib/exporters/csv_exporter.py:216 | no column name sorts before itself |
| Ordering.BelowTotal | ap_gnss_stats/lib/exporters/csv_exporter.py:216 | of two different column names one sorts before the other |
| Ordering.BelowTransitive | ap_gnss_stats/lib/exporters/csv_exporter.py:216 | the string order is transitive |
| Ordering.BelowAsymmetric | ap_gnss_stats/lib/exporters/csv_exporter.py:216 | two names never sort before each other |
| Ordering.Insert | ap_gnss_stats/lib/exporters/csv_exporter.py:216 | inserting a new name into an ascending list keeps it ascending and adds exactly that name |
| Ordering.AscendingUnique | ap_gnss_stats/lib/exporters/csv_exporter.py:216 | two ascending lists of the same names are equal, so the sorted column list is determined by the set of names |
| Ordering.AscendingDistinct | ap_gnss_stats/lib/exporters/csv_exporter.py:216 | an ascending list repeats no name |
| Ordering.SortedNames | ap_gnss_stats/lib/exporters/csv_exporter.py:216 | `sorted` of a set of names is ascending and holds exactly those names |
| Ordering.Least | ap_gnss_stats/lib/exporters/csv_exporter.py:216 | a non-empty set of names has a least one |
| Ordering.InsertReal | ap_gnss_stats/lib/exporters/csv_exporter.py:478 | inserting a reading into a non-decreasing list keeps it non-decreasing and adds exactly that reading |
| Ordering.SortReals | ap_gnss_stats/lib/exporters/csv_exporter.py:478 | sorting the readings gives a non-decreasing permutation of them |
| Ordering.Min | ap_gnss_stats/lib/exporters/csv_exporter.py:480 | the minimum is one of the readings and no reading is smaller |
| Ordering.Max | ap_gnss_stats/lib/exporters/csv_exporter.py:481 | the maximum is one of the readings and no reading is larger |
| CsvRows.Clean | ap_gnss_stats/lib/exporters/csv_exporter.py:540-543 | a cleaned text holds no CR or LF and has no whitespace at either end |
| CsvRows.CleanFixed | ap_gnss_stats/lib/exporters/csv_exporter.py:542 | cleaning an already clean text changes nothing |
| CsvRows.CleanExactly | ap_gnss_stats/lib/exporters/csv_exporter.py:542 | a text is left unchanged iff it is already clean |
| CsvRows.FormatCsvValue | ap_gnss_stats/lib/exporters/csv_exporter.py:524-546 | None gives "", a bool "true"/"false" (checked before numbers), an int a decimal text that parses back to it, a string a clean text; floats, dicts and lists are left for the writer's `str()` |
| CsvRows.FormatIdempotent | ap_gnss_stats/lib/exporters/csv_exporter.py:524-546 | formatting a formatted value changes nothing |
| CsvRows.SetAllFacts | ap_gnss_stats/lib/exporters/csv_exporter.py:363-381 | conditional assignments add no key, and a key of the row ends with the last value assigned to it |
| CsvRows.SetExisting | ap_gnss_stats/lib/exporters/csv_exporter.py:371-373 | the loop assigns a value only to a key the row already has |
| CsvRows.NullRowFacts | ap_gnss_stats/lib/exporters/csv_exporter.py:348-350 | the initial row has exactly the columns as keys, each holding None |
| CsvRows.InitRow | ap_gnss_stats/lib/exporters/csv_exporter.py:348-350 | the loop builds the all-None row |
| CsvRows.PutConfig | ap_gnss_stats/lib/exporters/csv_exporter.py:411-415 | one slot's configuration values are assigned under `{parent}_slot{n}_{key}` only when that column is listed |
| CsvRows.FlattenSlotsData | ap_gnss_stats/lib/exporters/csv_exporter.py:386-417 | the loop builds the slot count, then every listed configuration value of every slot with a non-empty configuration |
| CsvRows.SlotMetricsIn | ap_gnss_stats/lib/exporters/csv_exporter.py:398-417 | every slot metric key is a slot column of the same section, and each configuration value sits under a listed column |
| CsvRows.PutRaw | ap_gnss_stats/lib/exporters/csv_exporter.py:358-364 | raw entries are written as `raw_{key}` only into columns that exist |
| CsvRows.PutDict | ap_gnss_stats/lib/exporters/csv_exporter.py:365-377 | a dict section's entries go into `{section}_{key}` columns that exist, slot lists through their slot metrics |
| CsvRows.FlattenSection | ap_gnss_stats/lib/exporters/csv_exporter.py:353-381 | one section: the satellite aggregate merged in, or the section's formatted values put into existing columns |
| CsvRows.SectionWritesIn | ap_gnss_stats/lib/exporters/csv_exporter.py:358-381 | a section other than "satellites" writes only columns the same section contributes |
| CsvRows.SectionStepFacts | ap_gnss_stats/lib/exporters/csv_exporter.py:353-381 | one section adds exactly its aggregate keys and changes no value outside its columns |
| CsvRows.FlattenApData | ap_gnss_stats/lib/exporters/csv_exporter.py:335-383 | the method returns `Row(d, columns)`: all columns None, then the sections in order |
| CsvRows.RowKeys | ap_gnss_stats/lib/exporters/csv_exporter.py:346-383 | a row's keys are exactly the columns plus the aggregate keys its satellite sections merge in, columns or not |
| CsvRows.RowUntouched | ap_gnss_stats/lib/exporters/csv_exporter.py:348-350 | a listed column no section contributes stays None |
| CsvRows.RowFits | ap_gnss_stats/lib/exporters/csv_exporter.py:209-216 | when the record's own columns are listed, the row has no key outside the list |
| CsvRows.MergedKeysInColumns | ap_gnss_stats/lib/exporters/csv_exporter.py:292-357 | merged aggregate keys are columns the record itself contributes |
| CsvRows.RowPlain | ap_gnss_stats/lib/exporters/csv_exporter.py:378-381 | a plain section value lands, formatted, in its column when that column is listed and no later section writes it |
| CsvRows.RowAggregate | ap_gnss_stats/lib/exporters/csv_exporter.py:354-357 | an aggregate value lands in the row when no later section writes that key |
| CsvRows.RowAfter | ap_gnss_stats/lib/exporters/csv_exporter.py:353-381 | a value left by the sections up to i survives when no later section writes that key |
| CsvExport.Line | ap_gnss_stats/lib/exporters/csv_exporter.py:139-179 | a written line has one cell per field name |
| CsvExport.Lines | ap_gnss_stats/lib/exporters/csv_exporter.py:137-140 | one line per record |
| CsvExport.LinesAt | ap_gnss_stats/lib/exporters/csv_exporter.py:137-140 | line i is the line of record i's flattened row |
| CsvExport.FitCount | ap_gnss_stats/lib/exporters/csv_exporter.py:137-196 | the rows written are exactly those before the first row the writer refuses |
| CsvExport.FitCountUnique | ap_gnss_stats/lib/exporters/csv_exporter.py:137-140 | writing stops at the first refused record and nowhere else |
| CsvExport.WriteRowsFacts | ap_gnss_stats/lib/exporters/csv_exporter.py:133-180 | writing succeeds iff every row is accepted, and each line written is its record's line |
| CsvExport.WriteBatch | ap_gnss_stats/lib/exporters/csv_exporter.py:137-180 | the row loop produces `WriteRows`: it stops at the first row the writer refuses |
| CsvExport.ExportGnssDataToCsv | ap_gnss_stats/lib/exporters/csv_exporter.py:44-196 | the export produces `ExportOf(records, append, target)` |
| CsvExport.ExportEmpty | ap_gnss_stats/lib/exporters/csv_exporter.py:49-52 | an empty batch is refused and the file is not touched |
| CsvExport.CoveredFits | ap_gnss_stats/lib/exporters/csv_exporter.py:137-140 | every row fits when each record's columns are field names |
| CsvExport.ExportOverwrite | ap_gnss_stats/lib/exporters/csv_exporter.py:154-188 | overwriting, or appending with no usable header, succeeds; the header is the sorted union of the batch's columns and each record becomes one line |
| CsvExport.ExportAppend | ap_gnss_stats/lib/exporters/csv_exporter.py:103-147 | appending with a non-empty header reuses it as the field names and writes no header line; success iff every row fits that header |
| CsvExport.AppendCovered | ap_gnss_stats/lib/exporters/csv_exporter.py:125-147 | appending succeeds when the existing header covers every column of the batch |
| CsvExport.AppendMissingFails | ap_gnss_stats/lib/exporters/csv_exporter.py:133-196 | appending fails, writing nothing, when the first record merges an aggregate the header lacks |
| CsvExport.AppendNewSatellitesFails | ap_gnss_stats/lib/exporters/csv_exporter.py:133-140 | a record with satellites appended under a header without the count columns is refused |
| Utils.PuttyAt | ap_gnss_stats/lib/utils.py:30 | a `putty-` match yields two labels free of '-' and '.' |
| Utils.SessionAt | ap_gnss_stats/lib/utils.py:31 | a `session-capture.` match yields a non-empty name without '.' |
| Utils.ApNameFromFilename | ap_gnss_stats/lib/utils.py:15-44 | a recognised AP name is non-empty and holds no '.' |
| Utils.PuttyName | ap_gnss_stats/lib/utils.py:29-39 | `putty-a-b-c.ext` names the AP `b-c`, whatever precedes it without a 'p' |
| Utils.SessionName | ap_gnss_stats/lib/utils.py:29-42 | `session-capture.<ap>.<rest>` names the AP `<ap>` when no putty match occurs |
| Utils.NoPuttySession | ap_gnss_stats/lib/utils.py:29-35 | a session-capture name whose parts hold no 'u' has no putty match |
| Utils.MakeDateTime | ap_gnss_stats/lib/utils.py:77-82 | `strptime` accepts exactly the valid calendar dates and times, keeping each field |
| Utils.DottedAt | ap_gnss_stats/lib/utils.py:63 | a dotted stamp match occupies the 19 characters after its position, the closing '.' included |
| Utils.ParseTimestamp | ap_gnss_stats/lib/utils.py:47-86 | a parsed time stamp is always a valid date and time |
| Utils.Pad | ap_gnss_stats/lib/utils.py:62-63 | a zero-padded field has its width and only digits |
| Utils.PadValue | ap_gnss_stats/lib/utils.py:62-63 | a padded number reads back as itself |
| Utils.CompactRoundTrip | ap_gnss_stats/lib/utils.py:62-82 | a name starting `YYYYMMDD-HHMMSS` of a valid time parses back to that time |
| Utils.DottedAtText | ap_gnss_stats/lib/utils.py:63-78 | the dotted form of a valid time, placed in a name, matches and parses back to that time |
| Utils.DottedRoundTrip | ap_gnss_stats/lib/utils.py:63-78 | a name holding `.YYYY-MM-DD-HHMMSS.` of a valid time, with no earlier '.' and no leading digit, parses back to that time |
| Utils.NoFebruaryThirtieth | ap_gnss_stats/lib/utils.py:83-84 | a stamp naming 30 February is rejected and yields no time |
| Utils.Basename | ap_gnss_stats/lib/utils.py:131 | the base name is the path's final part after the last '/' |
| Utils.FilePath | ap_gnss_stats/lib/utils.py:134-142 | one file adds its path at the end of its AP's list, or of `unknown`, creating the list when missing |
| Utils.CategorizeFilesByAp | ap_gnss_stats/lib/utils.py:118-144 | the loop over the paths builds the categorised dict |
| Utils.BucketsArePaths | ap_gnss_stats/lib/utils.py:128-144 | each AP's list holds exactly the paths whose name maps to it, in input order |
| Utils.PutTwice | ap_gnss_stats/lib/utils.py:135-137 | creating an empty list and appending equals appending to the list |
| Utils.CategorizedKeys | ap_gnss_stats/lib/utils.py:128-144 | the dict has distinct keys, and an AP is a key exactly when some path maps to it |
| Prometheus.SubGet | ap_gnss_stats/lib/exporters/prometheus_exporter.py:394 | `data.get(section, {}).get(key)` is None for a missing section and raises exactly when the section is not a dict |
| Prometheus.WordApAt | ap_gnss_stats/lib/exporters/prometheus_exporter.py:408 | a `(\\w+)-ap(\\d+)\\.` match has a non-empty word and a digit run |
| Prometheus.FromFileName | ap_gnss_stats/lib/exporters/prometheus_exporter.py:400-419 | a name taken from the input file is non-empty text |
| Prometheus.FromFileNameIntended | ap_gnss_stats/lib/exporters/prometheus_exporter.py:405-419 | the same, with each pattern taking the group it evidently means |
| Prometheus.GetApName | ap_gnss_stats/lib/exporters/prometheus_exporter.py:383-425 | `_get_ap_name` returns a truthy value or "" unless it raises |
| Prometheus.GetApNameIntended | ap_gnss_stats/lib/exporters/prometheus_exporter.py:383-425 | the corrected chain returns a truthy value or "" unless it raises |
| Prometheus.ApNamePriority | ap_gnss_stats/lib/exporters/prometheus_exporter.py:393-398 | a truthy `main_ap_name` wins; otherwise a truthy `ver_ap_name` |
| Prometheus.FileOnlyGets | ap_gnss_stats/lib/exporters/prometheus_exporter.py:394-402 | a record with only an input file reaches the file-name step |
| Prometheus.SessionCaptureRaises | ap_gnss_stats/lib/exporters/prometheus_exporter.py:411-419 | for `session-capture.<ap>.<rest>` the session pattern's text contains `ap`, so `group(2)` is asked of a one-group match and raises IndexError; the corrected chain returns `<ap>` |
| Prometheus.IntendedAgreesWithUtils | ap_gnss_stats/lib/exporters/prometheus_exporter.py:405-419 | the corrected file-name step agrees with the shared `get_ap_name_from_filename` helper on every name it recognises |
| Prometheus.PushApName | ap_gnss_stats/lib/exporters/prometheus_exporter.py:81-84 | the pushed name is truthy: the found name, or `unknown` when none was found |
| Prometheus.StateValue | ap_gnss_stats/lib/exporters/prometheus_exporter.py:488 | the state gauge is 1 exactly when the state is `Started`, else 0 |
| Prometheus.FixTypeValue | ap_gnss_stats/lib/exporters/prometheus_exporter.py:496-502 | the fix gauge is 2 for `3D-Fix`, 1 for `2D-Fix`, else 0 |
| Prometheus.FlagValue | ap_gnss_stats/lib/exporters/prometheus_exporter.py:508-509 | a flag gauge is 1 exactly when the flag is truthy |
| Prometheus.ExtraGauges | ap_gnss_stats/lib/exporters/prometheus_exporter.py:521-531 | the range residual and GpGstRms gauges are set exactly when their fields are not None |
| Prometheus.StateGauges | ap_gnss_stats/lib/exporters/prometheus_exporter.py:474-535 | the state gauge comes first, 0 or 1, and at most six gauges are set |
| Prometheus.StateGaugesNoGnss | ap_gnss_stats/lib/exporters/prometheus_exporter.py:482-485 | with no GNSS detected only the state gauge is set, to 0; otherwise the four gauges and the extras are |
| Prometheus.Trunc | ap_gnss_stats/lib/exporters/prometheus_exporter.py:836 | `int()` of a float truncates toward zero |
| Prometheus.UptimeSeconds | ap_gnss_stats/lib/exporters/prometheus_exporter.py:825-838 | a stored uptime in seconds is used as is; otherwise the days, hours and minutes, each converted by `int()` (digit separators included) |
| Prometheus.CombinedUptime | ap_gnss_stats/lib/exporters/prometheus_exporter.py:829-838 | the parts give a value exactly when all three are present and `int()` accepts each, and that value is days times 86400 plus hours times 3600 plus minutes times 60 |
| Prometheus.UptimeFromGivenParts | ap_gnss_stats/lib/exporters/prometheus_exporter.py:825-834 | without `ver_uptime_seconds` the gauge's value is what the three stored parts combine into |
| Prometheus.CombinedWholeParts | ap_gnss_stats/lib/exporters/prometheus_exporter.py:836 | integer parts are taken as they are by `int()` and combine into their total in seconds |
| Prometheus.PyIntGrouped | ap_gnss_stats/lib/exporters/prometheus_exporter.py:835 | `int()` of a text part with a digit separator, such as `"1_0"`, is the number its digits spell |
| Prometheus.UptimeFromParts | ap_gnss_stats/lib/exporters/prometheus_exporter.py:828-836 | with day, hour and minute counts the uptime is their total in seconds, and those parts can be read back from it |
| Prometheus.UptimeNeedsAllParts | ap_gnss_stats/lib/exporters/prometheus_exporter.py:834 | a missing part leaves the uptime unset |
| Prometheus.SatKey | ap_gnss_stats/lib/exporters/prometheus_exporter.py:702-706 | the tally key's used status is `yes` or `no` |
| Prometheus.Bump | ap_gnss_stats/lib/exporters/prometheus_exporter.py:707 | one more satellite adds one to the count of every key equal to its key under Python's `==` (`True == 1 == 1.0`) and to the total, and nothing else; it keeps the stored keys in place and appends the key only when no equal key is present |
| Prometheus.NumbersCompareEqual | ap_gnss_stats/lib/exporters/prometheus_exporter.py:706-707 | `True`, `1` and `1.0` are one key component, the text `"1"` another |
| Prometheus.SameKeyClass | ap_gnss_stats/lib/exporters/prometheus_exporter.py:706-707 | two keys are one dict entry exactly when their numeric values (numbers and bools) or their other values agree, so key equality is an equivalence |
| Prometheus.EqualKeysMerge | ap_gnss_stats/lib/exporters/prometheus_exporter.py:706-707 | two satellites with equal keys share one entry, which counts both |
| Prometheus.BumpDistinct | ap_gnss_stats/lib/exporters/prometheus_exporter.py:707 | counting a satellite keeps the tally's keys pairwise unequal |
| Prometheus.TallyDistinct | ap_gnss_stats/lib/exporters/prometheus_exporter.py:699-716 | the tally holds no two equal keys, so the gauge loop sets one gauge, and adds one to `metric_count`, per distinct key |
| Prometheus.CountConstellations | ap_gnss_stats/lib/exporters/prometheus_exporter.py:699-707 | the counting loop returns the tally, or fails where Python raises |
| Prometheus.TallyFailsOn | ap_gnss_stats/lib/exporters/prometheus_exporter.py:701-707 | a satellite Python cannot key makes the whole count raise |
| Prometheus.TallyCounts | ap_gnss_stats/lib/exporters/prometheus_exporter.py:699-707 | each key counts exactly the satellites whose key equals it under Python's `==`, and the counts add up to the number of satellites |
| Prometheus.RawMetricOf | ap_gnss_stats/lib/exporters/prometheus_exporter.py:1329-1342 | numbers, booleans and text become metrics (booleans as 0 or 1, text as an info metric); other values none |
| Prometheus.RawDataMetrics | ap_gnss_stats/lib/exporters/prometheus_exporter.py:1313-1344 | the raw-data loop creates the metrics and counts them |
| Prometheus.RawMetricsCount | ap_gnss_stats/lib/exporters/prometheus_exporter.py:1329-1344 | the returned count is the number of scalar raw values, and every metric is keyed by a raw-data key |
| Prometheus.TestPort | ap_gnss_stats/lib/exporters/prometheus_exporter.py:191-195 | an explicit non-zero port is used; otherwise 443 for https and 80 for any other scheme |
| Prometheus.Connectivity | ap_gnss_stats/lib/exporters/prometheus_exporter.py:167-221 | the gateway passes exactly when it has a host name, the TCP connect returns 0 and the HEAD status is below 400, 404 or 405 |
| Collector.BaseHostname | ap_gnss_stats/bin/ap_ssh_collector.py:472 | the base host name holds no space |
| Collector.ResolveHostname | ap_gnss_stats/bin/ap_ssh_collector.py:472-506 | the host label of the address replaces the prompt name exactly when the collector's truncation test holds; otherwise the prompt name with spaces as '_' is kept; never shorter than the prompt name |
| Collector.CollectorImpliesParser | ap_gnss_stats/bin/ap_ssh_collector.py:487-494 | every name the collector's test (one character stripped) recovers is the one the parser's rule recovers from the same address |
| Collector.StrToBool | ap_gnss_stats/bin/ap_ssh_collector.py:144-146 | true iff the lower-cased text is "true", "1", "yes" or "y" |
| Collector.StrToBoolWider | ap_gnss_stats/bin/ap_ssh_collector.py:144-146 | every text `convert_to_bool` accepts is accepted here too; "1", "yes" and "y" only here |
| Collector.GetEnvOrDefault | ap_gnss_stats/bin/ap_ssh_collector.py:135-141 | unset gives the default; a successful conversion gives its value; it fails iff the conversion raises something other than ValueError/TypeError |
| Collector.EnvConversions | ap_gnss_stats/bin/ap_ssh_collector.py:135-150 | with `str_to_bool` or `int` as conversion the lookup never fails and falls back to the default only on an unset or non-integer variable |
| Collector.EnvGroupedInt | ap_gnss_stats/bin/ap_ssh_collector.py:135-141 | an integer variable written with a digit separator (`1_000`) is read as its number, not replaced by the default |
| Collector.Keep | ap_gnss_stats/bin/ap_ssh_collector.py:861-863 | a line contributes at most its stripped text, and only when that is non-empty and not a comment |
| Collector.ApEntries | ap_gnss_stats/bin/ap_ssh_collector.py:860-863 | every listed entry is stripped, non-empty and not a comment |
| Collector.ApEntriesAppend | ap_gnss_stats/bin/ap_ssh_collector.py:860-863 | the list keeps file order |
| Collector.ApEntriesMembers | ap_gnss_stats/bin/ap_ssh_collector.py:860-863 | exactly the stripped lines that are neither empty nor comments are listed |
| Collector.ReadApList | ap_gnss_stats/bin/ap_ssh_collector.py:858-867 | the reading loop builds `ApEntries(lines)` |
| Collector.Dedupe | ap_gnss_stats/bin/ap_ssh_collector.py:1110 | the de-duplicated list has no repeats and the same members as the input |
| Collector.DedupeOrder | ap_gnss_stats/bin/ap_ssh_collector.py:1110 | the kept entries follow the order of their first occurrences |
| Collector.Merge | ap_gnss_stats/bin/ap_ssh_collector.py:541-542 | the CAPWAP entries are assigned into the parsed data one after another |
| Collector.MetadataFirst | ap_gnss_stats/bin/ap_ssh_collector.py:555-560 | the ordered dict is the metadata, then every other entry in order |
| Collector.OrderedData | ap_gnss_stats/bin/ap_ssh_collector.py:539-564 | merging, setting the metadata, copying with metadata first and deleting raw data unless wanted give `Written` |
| Collector.DeleteRaw | ap_gnss_stats/bin/ap_ssh_collector.py:562-564 | deleting raw data when unwanted equals dropping it along with the metadata |
| Collector.WrittenFacts | ap_gnss_stats/bin/ap_ssh_collector.py:539-564 | the written record starts with the metadata, keys are distinct, every other key holds the merged value (CAPWAP winning), and raw data is absent unless wanted |
| Collector.OthersGet | ap_gnss_stats/bin/ap_ssh_collector.py:558-560 | dropping keys leaves every other key's value as it was |
| Collector.FailedRuns | ap_gnss_stats/bin/ap_ssh_collector.py:677-690 | a record of at most one key, or without the three main sections, is a failure |
| Collector.ParsedRunSucceeds | ap_gnss_stats/bin/ap_ssh_collector.py:673-690 | every record the parser returns holds gnss_state, so such a run always succeeds |
| GnssLog.LogSpan | ap_gnss_stats/bin/parse_gnss_log.py:96-107 | the section starts at the first exact `GnssState:` and runs to the first `Const.` after it, or to the end; none without `GnssState:` |
| GnssLog.CaseSensitive | ap_gnss_stats/bin/parse_gnss_log.py:159-161 | the log script's searches are case-sensitive: a case-sensitive match is an exact match |
| GnssLog.LogMetrics | ap_gnss_stats/bin/parse_gnss_log.py:84-99 | without a `GnssState:` section the metrics are an empty dict |
| GnssLog.ExtractGnssMetrics | ap_gnss_stats/bin/parse_gnss_log.py:84-180 | `extract_gnss_metrics` returns the section's metrics, or the ValueError a group raises |
| GnssLog.SectionMetricsFails | ap_gnss_stats/bin/parse_gnss_log.py:130-156 | the metrics fail exactly when a matching group holds a capture `float()` rejects |
| GnssLog.SectionMetricsKeys | ap_gnss_stats/bin/parse_gnss_log.py:109-180 | the metrics hold distinct keys, each a field of the info parser's state section other than its no-GNSS flag |
| GnssLog.SectionPatternField | ap_gnss_stats/bin/parse_gnss_log.py:159-178 | each pattern field holds its converted first match, and is absent without one |
| GnssLog.SectionGroupPresence | ap_gnss_stats/bin/parse_gnss_log.py:130-156 | a group field is present exactly when its group matches, and then holds a number |
| GnssLog.Flexible | ap_gnss_stats/bin/parse_gnss_log.py:192-200 | the flexible record has its four keys, each once, holding the raw data, the satellites, the parse time and the metrics |
| GnssLog.FlexibleRecord | ap_gnss_stats/bin/parse_gnss_log.py:183-259 | `parse_flexible` fails exactly when the metrics do |
| GnssLog.ParseFlexible | ap_gnss_stats/bin/parse_gnss_log.py:183-259 | `parse_flexible` computes the flexible record |
| GnssLog.FlexibleSections | ap_gnss_stats/bin/parse_gnss_log.py:183-259 | the record holds the given parse time, the metrics, raw data whose keys hold their last assignment, and at most 49 satellites, none without `Const.` |
| GnssLog.FlexibleSatelliteOrigin | ap_gnss_stats/bin/parse_gnss_log.py:222-253 | each satellite is the row of a satellite line among the first 50 lines of the table |
| Gatherer.SplitLines | tools/gnss_gatherer.py:101 | no piece holds a line break, and only the empty text has no lines |
| Gatherer.SplitLinesJoin | tools/gnss_gatherer.py:101 | for "\n"-separated text without a final break, joining the lines gives the text back |
| Gatherer.Blank | tools/gnss_gatherer.py:56-98 | each starting dictionary has exactly its listed keys, each holding "" |
| Gatherer.Until | tools/gnss_gatherer.py:127-211 | assignments run in order until one raises; every earlier assignment is made |
| Gatherer.SpacedRun | tools/gnss_gatherer.py:130-138 | a `tag\s+(run)` capture is a non-empty run of its class |
| Gatherer.SpacedFloat | tools/gnss_gatherer.py:130-138 | a found `[\d.]+` capture that `float()` accepts gives a float |
| Gatherer.SpacedInt | tools/gnss_gatherer.py:134 | a found `\d+` capture gives a non-negative int |
| Gatherer.FloatAt | tools/gnss_gatherer.py:126-128 | `float(parts[i])` succeeds iff the word exists and parses |
| Gatherer.FixCode | tools/gnss_gatherer.py:123 | 2 iff the line names "3D-Fix", 1 iff "2D-Fix" without "3D-Fix", 0 otherwise |
| Gatherer.DerivationCode | tools/gnss_gatherer.py:177-180 | 1 iff "GNSS", 2 iff "GNSS_PostProcessor", nothing otherwise |
| Gatherer.DerivationLine | tools/gnss_gatherer.py:175-180 | the branch never raises and writes `derivation_type` only for the two known values |
| Gatherer.MainLineWithin | tools/gnss_gatherer.py:117-138 | a line of the receiver-state part only assigns fields the dictionary starts with |
| Gatherer.LocationLineWithin | tools/gnss_gatherer.py:141-174 | the shared location branches only assign fields both location dictionaries start with |
| Gatherer.LastLineWithin | tools/gnss_gatherer.py:159-184 | a line of the last-location part only assigns its dictionary's fields |
| Gatherer.Marker | tools/gnss_gatherer.py:109-114 | a marker line switches to the post-processor or last-location part, never back to main |
| Gatherer.StepShaped | tools/gnss_gatherer.py:105-184 | no line adds a field to, or removes one from, any of the three dictionaries |
| Gatherer.RunShaped | tools/gnss_gatherer.py:105-184 | after any lines, the three dictionaries keep exactly their starting fields in order |
| Gatherer.RunStep | tools/gnss_gatherer.py:105 | the loop state after one more line is one more step |
| Gatherer.RunRaised | tools/gnss_gatherer.py:100-211 | once a line has raised, the rest of the output changes nothing |
| Gatherer.StepSection | tools/gnss_gatherer.py:108-114 | a step never undoes an exception and otherwise moves the part only at a marker line |
| Gatherer.RunSection | tools/gnss_gatherer.py:102-114 | until a line raises, the part is the one the last marker line named, the receiver state before any |
| Gatherer.SectionMain | tools/gnss_gatherer.py:102-114 | the loop stays in the receiver state exactly as long as no marker line has been seen |
| Gatherer.MarkerConsumed | tools/gnss_gatherer.py:109-114 | a marker line switches part and assigns nothing |
| Gatherer.FixLineOverwrites | tools/gnss_gatherer.py:122-124 | in main, a "Fix:" line the GnssState/ExternalAntenna branches do not take overwrites `fix_type` and `valid_fix` and nothing else |
| Gatherer.ValidFixLine | tools/gnss_gatherer.py:122-124 | a "ValidFix: true" line takes the fix branch: `valid_fix` 1, and `fix_type` 0 without a 3D/2D fix on the line |
| Gatherer.DerivationStep | tools/gnss_gatherer.py:175-180 | in the last-location part a derivation line stores 1 for "GNSS", 2 for "GNSS_PostProcessor", and leaves the dictionary as it is otherwise |
| Gatherer.RaisedKeepsPartial | tools/gnss_gatherer.py:100-211 | when a line raises, the dictionaries returned keep every assignment made before, including the raising line's earlier ones |
| Gatherer.HeaderFrom | tools/gnss_gatherer.py:204-205 | the table starts at the first line holding the exact header |
| Gatherer.TableStop | tools/gnss_gatherer.py:199-201 | the table ends at the first blank line or line naming "GNSS_PostProcessor" |
| Gatherer.CountUsed | tools/gnss_gatherer.py:196-205 | the second loop computes `UsedCount(lines)` |
| Gatherer.UsedCountIsTable | tools/gnss_gatherer.py:195-206 | `satellites_used` is the number of used-satellite rows between the first exact header line and the first line that ends the table; 0 without a header |
| Gatherer.ReadLine | tools/gnss_gatherer.py:106-184 | one pass of the line loop is one `Step` |
| Gatherer.ReadLines | tools/gnss_gatherer.py:105-184 | the line loop computes `RunFrom(g, lines)` and stops at the first line that raises |
| Gatherer.ParseGnssInfo | tools/gnss_gatherer.py:55-211 | the method returns `Gather(output, age)` |
| Gatherer.GatherKeys | tools/gnss_gatherer.py:56-98 | the three returned dictionaries have exactly the fields they start with, in order |
| Gatherer.SafeHost | tools/gnss_gatherer.py:25-29 | ':' and '/' become '_' and nothing else changes |
| Gatherer.PathJoin | tools/gnss_gatherer.py:26-30 | `os.path.join` ends with its second part; an absolute second part is kept alone, otherwise the directory comes first |
| Gatherer.CreateFilename | tools/gnss_gatherer.py:23-26 | the path ends with `<prefix>_<safe host>_<timestamp>.<ext>`, whose host part holds no '/' |
| Gatherer.LatestName | tools/gnss_gatherer.py:30 | the latest-data file name holds no '/' |
| Gatherer.LatestJsonFilename | tools/gnss_gatherer.py:28-30 | the path is `latest_gnss_data_<safe host>.json` inside the data directory |
| LegacyParser.ColonAfter | ap_gnss_stats/lib/parser.py:37-47 | the label words, then optional spaces, end on the ':' of the pattern |
| LegacyParser.RestSpan | ap_gnss_stats/lib/parser.py:37 | a `(.+)$` capture spans the rest of the line and ends where `$` can match |
| LegacyParser.MetresSpan | ap_gnss_stats/lib/parser.py:45 | an altitude capture is a signed decimal followed by optional spaces and 'm' where `$` can match |
| LegacyParser.SpanAt | ap_gnss_stats/lib/parser.py:37-47 | a match of a field pattern at a position captures a span of that pattern's shape |
| LegacyParser.ParseText | ap_gnss_stats/lib/parser.py:112-176 | `parse_text` assigns, in pattern order, each field whose pattern matches, with `$` matching only at the end of the text |
| LegacyParser.ParseTextPerLine | ap_gnss_stats/lib/parser.py:112-176 | the same assignments with `$` matching at every line end, as the sample output in the source expects |
| LegacyParser.ParseTextWith | ap_gnss_stats/lib/parser.py:112-170 | the chain of searches assigns the matching fields in table order |
| LegacyParser.Assign | ap_gnss_stats/lib/parser.py:115-170 | one search of the chain adds that field when its pattern matches |
| LegacyParser.AssignedMissing | ap_gnss_stats/lib/parser.py:112-170 | a key no pattern names is never assigned |
| LegacyParser.AssignedGet | ap_gnss_stats/lib/parser.py:115-170 | with distinct keys, each key holds its pattern's converted capture, or is absent without a match |
| LegacyParser.AssignedIsMatches | ap_gnss_stats/lib/parser.py:112-170 | the result is exactly the matching fields, in pattern order, each once |
| LegacyParser.PatternsDistinct | ap_gnss_stats/lib/parser.py:115-170 | the eleven fields have distinct keys |
| LegacyParser.ParsedFields | ap_gnss_stats/lib/parser.py:112-176 | each field of the result is its pattern's value, and the result holds only the matching fields in pattern order |
| LegacyParser.CaptureSpan | ap_gnss_stats/lib/parser.py:37-47 | a capture is the text of a span of its pattern's shape |
| LegacyParser.MetresAtEnd | ap_gnss_stats/lib/parser.py:45 | without MULTILINE the altitude's 'm' is the last character, or followed only by a final newline |
| LegacyParser.CaptureAtEnd | ap_gnss_stats/lib/parser.py:37-47 | without MULTILINE every capture ends at the end of the text, or before its one final newline |
| LegacyParser.DecimalParses | ap_gnss_stats/lib/parser.py:143-157 | a signed decimal capture always converts, so the `except ValueError` branches never store text |
| LegacyParser.ConvertKinds | ap_gnss_stats/lib/parser.py:117-170 | text fields store stripped text, decimal fields a number, the satellite count an int |
| LegacyParser.FieldKinds | ap_gnss_stats/lib/parser.py:115-170 | every stored value has its field's kind |
| LegacyParser.NoCaptureAfterBlankLine | ap_gnss_stats/lib/parser.py:37-47 | no pattern matches a text that ends in a blank line |
| LegacyParser.BlankLineEndsParse | ap_gnss_stats/lib/parser.py:37-47 | a text ending in a blank line parses to an empty dict |
| LegacyParser.ApNameLineSpan | ap_gnss_stats/lib/parser.py:37 | with MULTILINE, the AP name pattern on a first line `AP Name : v` captures exactly `v` |
| LegacyParser.PerLineReadsFirstLine | ap_gnss_stats/lib/parser.py:37 | with MULTILINE, `ap_name` is the stripped value of the first line whatever follows |
| ParseLogs.CleanName | ap_gnss_stats/bin/parse_logs.py:68 | the safe name keeps the length, turns each ' ', '/' and '\\' into '_' and keeps every other character |
| ParseLogs.CompactStamp | ap_gnss_stats/bin/parse_logs.py:77 | the compacted time stamp holds no ' ', ':' or '-' |
| ParseLogs.CompactStampIsStampChars | ap_gnss_stats/bin/parse_logs.py:77 | the three chained `replace` calls equal one pass mapping ' ' to '_' and dropping ':' and '-' |
| ParseLogs.DefaultNameClean | ap_gnss_stats/bin/parse_logs.py:66-68 | the default name `unknown_ap` is already safe |
| ParseLogs.OutputFilenameCases | ap_gnss_stats/bin/parse_logs.py:55-81 | the name is the safe AP name (default `unknown_ap`), '_', the timestamp part, '.' and the extension; it raises exactly when `ap_name` is not text |
| ParseLogs.OutputFilenameParts | ap_gnss_stats/bin/parse_logs.py:66-81 | with a text name and time stamp the file name is the safe name and the compacted stamp, neither holding a separator |
| ParseLogs.OutputFilenameClock | ap_gnss_stats/bin/parse_logs.py:71-79 | without a text time stamp the current time is used |

## Left out

- Digits, letters and case mapping are ASCII only (`Text.LowerChar`, `Text.IsDigit`, `Text.AtCI`). Python's `\d`, `\w`, `str.lower()`, `str.isdigit()` and `re.IGNORECASE` are Unicode-aware, so non-ASCII digits and letters behave differently. Whitespace (`Text.IsSpace`) is Python's full Unicode set, as `str.strip()` and `\s` use it.
- `Text.ParseFloat` accepts an optional sign, digits and one dot. Surrounding whitespace is stripped first, as Python does. Python's `float()` also accepts exponents (`1e5`), `inf`, `nan` and underscores. As a result:
  - `CapwapConfig.NormalizeValue`, `Tables.Cell`, `Tables.RawValue`, `LegacyParser.Convert` and `GnssState.Convert` keep such values as text or treat them as failed conversions;
  - `Gatherer.FloatAt` treats such a word as a raise, which ends the line loop and skips `satellites_used`, where Python stores a float;
  - `SatelliteStats.FloatOf` drops an SNR or elevation cell such as `1e5`, `inf` or `nan`, which Python keeps as a reading.
- Reals stand in for IEEE-754 doubles. Rounding, overflow and the text `str()` gives a float are not modelled.
- `SatelliteStats.AggregateSatelliteData`: the averages omit `round(..., 2)`. The mean is the exact quotient.
- Clock and date parsing are inputs, not computations:
  - the current time in `parse_logs` (`now`);
  - the gatherer's age of the last location (the `age` parameter);
  - `datetime.now().isoformat()` in `parse_flexible` (`parseTime`);
  - `dateutil` parsing and the export time stamp.
- Network, SSH, threads, logging, files and environment variables are not modelled; what they deliver is a parameter. This covers:
  - `connect_to_ap`, `process_single_ap`, `main`, the thread throttling, the log handlers and `find_dotenv_file` in the collector;
  - the SSH call and module-level setup of the gatherer;
  - `find_gnss_log_files` and `examine_file`;
  - CSV file I/O, `_verify_csv_file_after_write` and `debug_csv_export_environment`. The existing header is passed in as a value.
- The Prometheus client (`Gauge`, `CollectorRegistry`, `push_to_gateway`, the auth handler) and the socket and HTTP calls are not modelled. A metric is the value it would be set to; the connect result and HEAD status are parameters of `Prometheus.Connectivity`.
- The collector's import of the CSV exporter is not modelled. `ap_gnss_stats/lib/exporters/__init__.py` does not export it, so the collector falls back to stub functions.
- `GnssInfoParser.get_version` returns a constant and is not modelled.
- `BaseParser.ExtractWithPattern`: the regex, `group` and `flags` arguments are folded into one `pattern` parameter, a function from the text to the chosen group's capture. `re.search`'s own behaviour is modelled per pattern elsewhere.
- `BaseParser.ReorderJson`, `Collector.OrderedData` and `Collector.MetadataFirst` require distinct keys, which every Python dict has.
- `LegacyParser.ParseText` models the chain of eleven searches as one loop over the pattern table (`LegacyParser.ParseTextWith`), in the source's order.
- `CsvColumns.GetSatelliteColumnNames`: requires every satellite to be a dict whose constellation, if present, is text. Otherwise `.lower()` raises and the whole export returns False via `except Exception` (csv_exporter.py:190-196); that path is not modelled.
- `CsvColumns.ExtractSlotsColumnNames`: requires every slot entry to be a dict whose non-empty configuration is a dict and whose slot number is an int or text. Other values raise, or render through `str()`, which is not modelled.
- `CsvColumns.DictColumnNames`: requires every `slots` list in a section to meet the slot condition above.
- `CsvColumns.ExtractColumnNames`: requires `satellites` to be a list of satellites meeting the condition above, and each other dict section to meet the slot condition.
- `CsvColumns.GetAllColumnNames`: requires every record to meet that record condition.
- `CsvRows.FlattenSlotsData`: requires the slot condition.
- `CsvRows.PutDict`: requires the slot condition.
- `CsvRows.FlattenSection`: requires the section condition.
- `CsvRows.FlattenApData`: requires the record condition.
- `SatelliteStats.AggregateSatelliteData`: requires the satellite condition.
- `CsvExport.WriteBatch`: requires every record to meet the record condition. A record that violates it makes the exporter return False, which is not modelled.
- `CsvExport.ExportGnssDataToCsv`: requires every record to meet the record condition. A record that violates it makes the exporter return False, which is not modelled.

## Findings

| source | as written | input that shows it | evidently intended | confidence | as-written member | corrected member |
|---|---|---|---|---|---|---|
| ap_gnss_stats/lib/exporters/prometheus_exporter.py:411-419 | The `session-capture` pattern text contains `ap` (in "capture"), so a match takes the `'ap' in pattern` branch. That branch asks a one-group match for `group(2)` and raises IndexError outside any `try`, aborting the push at line 81. | a record whose only name source is `metadata.input_file` = `session-capture.ap1.txt` | the session pattern's own group 1, `ap1`, as `utils.get_ap_name_from_filename` returns | not executed | Prometheus.SessionCaptureRaises | Prometheus.GetApNameIntended |
| ap_gnss_stats/lib/parser.py:37-47 | Every field pattern ends in `$` and is compiled without `re.MULTILINE`, so a field is found only when its value runs to the end of the text or to a final newline. A multi-line `show gnss info` output therefore yields only values that lie on its last line (the `\s*` after a colon can cross line feeds, so `"AP Name :\nAP Model : x"` gives `ap_name` the text `AP Model : x` and `model` the text `x`), and a text ending in a blank line yields `{}`. | `"AP Name : x\n\n"` parses to `{}` | per-line matching, under which `ap_name` is `x` (the sample in the repository's own test expects every field of a multi-line output) | not executed | LegacyParser.BlankLineEndsParse | LegacyParser.PerLineReadsFirstLine |
