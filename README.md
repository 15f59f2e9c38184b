# Production-parameter capture and dashboard: a Dafny model

The application photographs the control panels of laminating machines. A
vision model reads the panels' values zone by zone, and the readings are
uploaded as one record per capture to a spreadsheet. The dashboard reads
those records back and analyses them. This project models the logic of
that loop and proves properties of it:

- **Reading records back** (`LogValues`). A record is a loosely typed row.
  The dashboard coerces its values to numbers (`parseNumericValue`),
  resolves a field's actual, standard and difference values through their
  aliased keys (`getLogValue`), and reads day-first timestamps
  (`parseLogDate`).
- **The dashboard's list and chart** (`LogFilter`, `Chart`). The list
  applies the search, product, machine and day-granular date filters and
  orders the kept records newest first. The chart takes the twenty newest
  records, draws the tolerance band around the standard, and computes the
  padded y-axis range.
- **Option lists and selections** (`Fields`). These are the products on
  offer, the chartable fields of a machine and every known field. Two
  effects keep the selected product and field inside those lists.
- **Figures and alerts** (`Kpi`, `Tolerance`, `DataCardView`).
  - The record counts for today, the trailing week and this month.
  - The alert count and the yield.
  - The green/yellow/red band of a deviation, on the log cards and on the
    data-entry card.
  - The tolerance defaults of `types.ts` (`Types`).
- **Writing records** (`AppTimestamp`, `Upload`). The timestamp format has
  a round-trip theorem against `parseLogDate`. The uploaded record starts
  from its metadata, then every reading is written with its `std_` and
  `diff_` companions. Theorems show the dashboard reads those values back.
- **The capture screen's header and state** (`Presets`, `App`): the preset
  search, the model list, the API key in use, and the machine switch.
- **The settings dialog** (`Settings`):
  - the schema keys of the current machine;
  - the preset list;
  - saving, copying and creating machines and presets;
  - the label map;
  - the API-key, script and model lists.

## Modelling choices

- **A JavaScript value** is `JsValue`: undefined, null, a boolean, a
  `Number` or a string. A `Number` is a finite `real` or NaN.
  - Truthiness, `||`, `??`, `-`, `Math.abs` and the comparisons are modelled
    with their NaN behaviour.
  - A record is a `map<string, JsValue>`. A missing key reads as undefined.
- **`parseFloat` and `parseInt`** follow sections 19.2.4 and 19.2.5 of
  ECMA-262 on the inputs the application gives them. `ParseFloat` is
  proved to read the longest decimal-literal prefix.
- **A date** is the tuple of arguments of `new Date(y, mo, d, h, mi, s)`,
  with a zero-based month. Its time value follows the MakeDay/MakeTime
  algorithms of ECMA-262 section 21.4.1, with local time equal to UTC.
- **Date parsing and `now`.** The engine's generic `new Date(str)` parser,
  which `parseLogDate` falls back on, is a function parameter. So is the
  clock (`now`, and the stamp used in generated ids).
- **A zone's JSON schema** is held already parsed: the keys of its
  `properties` in order, or None when it does not parse.
- **State.** Handlers that change state are methods of small classes, one
  per form: `CaptureSession`, `MachineEditor`, `PresetForm`, `LabelEditor`
  and `ConfigForm`. Each method is proved against a specification function
  or states its whole new state.
- **Loops with a `forEach`** are `while` loops proved against a fold:
  `timeStats`, the field sets, the payload builder and the schema keys.

Behaviours of the code worth knowing, all proved:

- **A tolerance of 0** is handled in two ways. The alert count uses
  `tolerance || default`; the log cards and the input card use `??`. The
  two differ exactly on a tolerance of 0 (`Tolerance.FallbacksDifferOnlyOnZero`).
- **A NaN deviation** colours its tile red but does not raise the card's
  alert (`Fields.AlertIsRedTile`).
- **The year in the round trip.** The timestamp keeps two year digits, so
  the round trip restores the year only for 2000-2099
  (`AppTimestamp.RoundTripExactlyThisCentury`).
- **The y-axis range.** Its lower end is clamped at 0. With only negative
  values it can therefore lie above the upper end; the bounds lemma states
  containment only for non-negative values.
- **Saving a preset being edited** sends the id of the first preset whose
  name equals the name in the form. That is the name as typed, untrimmed,
  and the preset may belong to another machine.
  - The id is that of the edited preset only when no earlier preset bears
    its name (`Settings.EditedPresetKeepsItsId`).
  - A preset renamed during editing is sent without an id when no preset
    bears the new name, and otherwise with the id of the preset that does
    (`Settings.EditedId`). What the sheet script does with either request
    is not modelled.
- **Saving a machine whose id is not in the list** assigns at index -1. That
  adds no array element, so the list is unchanged (`Settings.SavedMachines`).
- **A machine id of ""** makes the two preset lists differ. The header list
  in `App.tsx` tests the id for truthiness; the dialog list in
  `SettingsModal.tsx` compares ids with `===`. So the header lists nothing
  while the dialog lists the presets whose machine id is ""
  (`Settings.HeaderAgreesWithDialog`).

## Model

| member | source | states |
|---|---|---|
| JsRuntime.Or | components/Dashboard.tsx:136 | `a \|\| b` is `a` exactly when `a` is truthy, else `b` |
| JsRuntime.Truthy | components/Dashboard.tsx:47 | the JavaScript truthiness of a value: undefined, null, false, 0, NaN and "" are falsy (a definition; its uses are stated through `Or`) |
| JsRuntime.ToJsString | components/Dashboard.tsx:41 | `String(v)`: a string is itself, a number its decimal form (a definition; its consequences are stated through `ParseNumericValue`) |
| JsRuntime.Coalesce | components/Dashboard.tsx:233 | `a ?? b` keeps any present value, 0 included |
| JsRuntime.OrNumber | components/Dashboard.tsx:338 | `a \|\| b` on a number replaces an absent value and 0 |
| JsRuntime.Sub | components/Dashboard.tsx:249 | subtraction is NaN exactly when an operand is NaN, and otherwise exact |
| JsRuntime.Abs | components/Dashboard.tsx:602 | `Math.abs` is NaN exactly for NaN; otherwise non-negative and equal to ±a |
| JsRuntime.ComparisonsWithNaN | components/Dashboard.tsx:634 | exactly one of `<=` and `>` holds for a number; neither holds for NaN |
| JsRuntime.NatToString | App.tsx:23-28 | `String(n)` is a non-empty digit string reading back as n, one digit exactly when n < 10 |
| JsRuntime.NumberToString | components/Dashboard.tsx:263 | `String(x)` of a number (a definition; `NumberTextIsUnsigned` states its first character) |
| JsRuntime.PadStart | App.tsx:23 | `padStart` gives length max(n, \|s\|): fill characters, then s |
| JsRuntime.Pad2OfSmall | App.tsx:23-28 | a number below 100 pads to exactly two digits that read back as it |
| JsRuntime.SliceFromEnd | App.tsx:25 | `slice(-n)` is the suffix of length min(n, \|s\|) |
| JsRuntime.LastTwoDigits | App.tsx:25 | the last two characters of a year ≥ 10 are two digits reading as year mod 100 |
| JsRuntime.Lower | components/Dashboard.tsx:197-199 | same length; no upper-case ASCII letter is left: each becomes its lower-case partner, and every other character is kept |
| JsRuntime.LowerIdempotent | components/Dashboard.tsx:197-199 | lower-casing twice is lower-casing once |
| JsRuntime.TrimStart | components/Dashboard.tsx:50 | the result is a suffix starting with no whitespace, the input itself when it starts with none |
| JsRuntime.TrimEnd | components/Dashboard.tsx:50 | the result is a prefix ending with no whitespace, the input itself when it ends with none |
| JsRuntime.TrimStartRemovesWhitespace | components/Dashboard.tsx:50 | everything `trimStart` removes is whitespace |
| JsRuntime.TrimEndRemovesWhitespace | components/Dashboard.tsx:50 | everything `trimEnd` removes is whitespace |
| JsRuntime.Trim | components/Dashboard.tsx:50 | `trim` is `trimEnd` after `trimStart` (a definition; `TrimKeeps` and the two lemmas above state what it removes) |
| JsRuntime.Split | components/Dashboard.tsx:61 | `split` gives at least one part, and no part contains the separator |
| JsRuntime.SplitWithoutSeparator | components/Dashboard.tsx:61 | a string without the separator is one part |
| JsRuntime.SplitAtFirstSeparator | components/Dashboard.tsx:61 | splitting `a + sep + b` yields `a`, then the parts of `b` |
| JsRuntime.ParseFloat | components/Dashboard.tsx:43 | `parseFloat` is NaN exactly when no prefix is a decimal literal |
| JsRuntime.ParseFloatTakesLongestPrefix | components/Dashboard.tsx:43 | `parseFloat` reads the longest decimal-literal prefix, and no longer prefix is a literal |
| JsRuntime.DecimalPrefixIsLiteral | components/Dashboard.tsx:43 | the measured prefix, when non-empty, is a decimal literal |
| JsRuntime.UnsignedPrefixIsLiteral | components/Dashboard.tsx:43 | the digits, point and digits after the sign, when present, form an unsigned literal |
| JsRuntime.ParseInt | components/Dashboard.tsx:54-63 | `parseInt` is NaN exactly when no digit (no hex digit after `0x`) follows the optional whitespace and sign; otherwise the sign times the value of the whole leading digit run |
| JsRuntime.ParseIntOrZero | components/Dashboard.tsx:62 | `parseInt(x) \|\| 0` is 0 where `parseInt` is NaN, and otherwise the signed value of the leading digit run |
| JsRuntime.IntSign | components/Dashboard.tsx:54-63 | the sign is -1 exactly when the trimmed text starts with `-`, else 1 |
| JsRuntime.DigitRunUnique | components/Dashboard.tsx:54-63 | a string has at most one leading digit run: the one `LeadingDigits` measures |
| JsRuntime.HexRunUnique | components/Dashboard.tsx:54-63 | likewise for a run of hex digits |
| JsRuntime.ParseIntOfDigits | components/Dashboard.tsx:54-56 | `parseInt` reads a digit string as its value |
| JsArrays.FindIndex | components/SettingsModal.tsx:104 | `findIndex` is the first satisfying index, or -1 exactly when none satisfies |
| JsArrays.Find | App.tsx:63 | `find` is the first satisfying element, or undefined exactly when none satisfies |
| JsArrays.Filter | components/Dashboard.tsx:196 | `filter` keeps exactly the satisfying elements, each as often as in the input |
| JsArrays.FilterAppend | components/Dashboard.tsx:196 | filtering a concatenation filters each part |
| JsArrays.FilterCons | components/Dashboard.tsx:196 | filtering a list is filtering its head, then its tail |
| JsArrays.FilterFilter | App.tsx:79-84 | two chained filters are one filter by both tests, order kept |
| JsArrays.NoDuplicatesPermutation | components/Dashboard.tsx:139 | a reordering of a repetition-free list is repetition-free |
| JsArrays.Dedupe | components/Dashboard.tsx:139 | `Array.from(new Set(a))` has the same elements as `a`, each once |
| JsArrays.DedupeOfRepeat | components/SettingsModal.tsx:77 | adding an element already in the set changes nothing |
| JsArrays.DedupeOfNew | components/SettingsModal.tsx:77 | a new element goes at the end |
| JsArrays.Take | components/Dashboard.tsx:238 | `slice(0, n)` is the first min(n, \|s\|) elements |
| JsArrays.Reverse | components/Dashboard.tsx:238 | `reverse` puts element i at \|s\|-1-i |
| Sorting.SortDesc | components/Dashboard.tsx:220-224 | the sort by `dateB - dateA` is a permutation with non-increasing keys, and stable: the elements of each key keep their input order |
| Sorting.SortByString | components/Dashboard.tsx:139 | the default sort is a permutation ordered by the values' string forms, and stable: elements with the same string form keep their order |
| Sorting.WithKeyCons | components/Dashboard.tsx:220-224 | one key's elements of a list are its head's, then its tail's |
| Sorting.WithKeySnoc | components/Dashboard.tsx:220-224 | one key's elements of a list are its front's, then its last element's |
| Sorting.WithKeySwap | components/Dashboard.tsx:220-224 | swapping neighbours with different keys leaves every key's elements unchanged |
| Sorting.InsertDescStable | components/Dashboard.tsx:220-224 | inserting an element puts it after the elements of its own key |
| Sorting.InsertByStringStable | components/Dashboard.tsx:139 | likewise for the string order |
| Sorting.WithKeyOfFilter | components/Dashboard.tsx:196-224 | taking one key's elements commutes with filtering |
| Sorting.StrLeTotal | components/Dashboard.tsx:139 | string order is total |
| Sorting.StrLeTransitive | components/Dashboard.tsx:139 | string order is transitive |
| Sorting.HasLeast | components/Dashboard.tsx:167 | a non-empty set of strings has a least element |
| Sorting.SortedList | components/Dashboard.tsx:167 | `Array.from(set).sort()` lists the set's elements, strictly increasing |
| JsDates.StartOfDay | components/Dashboard.tsx:208 | midnight of a time value's day is at most that value and within a day of it |
| JsDates.MakeDay | components/Dashboard.tsx:208 | the day number of a date, months beyond 0-11 carrying into the year (a definition; `CalendarDateDay` states its use) |
| JsDates.MakeTime | components/Dashboard.tsx:64 | a time of day of in-range hours, minutes and seconds lies within one day |
| JsDates.TimeValue | components/Dashboard.tsx:64 | `new Date(y, mo, d, h, mi, s).getTime()`, a year 0-99 meaning 1900-1999 (a definition; `CalendarDateDay` and `StartOfDay` state its day) |
| JsDates.CalendarDateDay | components/Dashboard.tsx:281 | a calendar date's day number is MakeDay of its components, and its midnight is that day's start |
| Types.Get | components/Dashboard.tsx:29 | a missing key reads as undefined |
| Types.ToleranceOf | components/Dashboard.tsx:233 | `preset?.tolerances?.[key]` is defined exactly when the preset has a tolerance for the key, and is then that stored tolerance |
| Types.GetDefaultTolerance | types.ts:71-76 | the default is 5 exactly for `speed` and the temperature fields, and 2 for every other key |
| Types.DefaultTolerancePositive | types.ts:71-76 | the default tolerance is positive |
| Types.LabelledFieldsHaveNamedDefaults | types.ts:57-74 | every labelled field is `speed`, a weight field or a temperature field |
| LogValues.ReplaceFirstComma | components/Dashboard.tsx:41 | same length; a string without a comma is unchanged |
| LogValues.KeepNumberChars | components/Dashboard.tsx:42 | only `-`, `.` and digits are left, and the result is never longer than the input |
| LogValues.ReplaceFirstCommaAt | components/Dashboard.tsx:41 | the first comma becomes `.`, and everything before and after it is kept |
| LogValues.KeepNumberCharsIsFilter | components/Dashboard.tsx:42 | stripping keeps every `-`, `.` and digit, in order, and nothing else |
| LogValues.ParseNumericValue | components/Dashboard.tsx:38-45 | blanks read as 0, a number is returned unchanged (NaN included), and anything else is a finite number |
| LogValues.ParseNumericValueOfString | components/Dashboard.tsx:41-44 | a string reads as the longest literal prefix of its cleaned text, or 0 when there is none |
| LogValues.TrimKeeps | components/Dashboard.tsx:50 | trimming keeps a string with no whitespace at either end |
| LogValues.DecimalCommaExample | components/Dashboard.tsx:41-44 | "12,5 kg" reads as 12.5 |
| LogValues.GetLogValue | components/Dashboard.tsx:25-36 | the `<k>_<kind>` value unless it is blank, else `<k>`, `std_<k> \|\| Std_<k>` or `diff_<k> \|\| Diff_<k>`; a null record reads 0 |
| LogValues.RawLogValue | components/Dashboard.tsx:28-33 | the raw value under `<k>_<kind>`, or its alias when that is blank (a definition; `GetLogValue` states it) |
| LogValues.LogValue | components/Dashboard.tsx:25-36 | `getLogValue` of a present record (a definition; `GetLogValue` states it) |
| LogValues.ProductNameValue | components/Dashboard.tsx:197 | `productName \|\| Sản phẩm \|\| ProductName` (a definition) |
| LogValues.StructureValue | components/Dashboard.tsx:198 | `structure \|\| Cấu trúc \|\| Structure` (a definition) |
| LogValues.MachineIdValue | components/Dashboard.tsx:202 | `machineId \|\| MachineID \|\| Máy \|\| machine_id` (a definition) |
| LogValues.TimestampValue | components/Dashboard.tsx:205 | `timestamp \|\| Timestamp \|\| Thời gian` (a definition; `StampIsTimestampValue` states it) |
| LogValues.MatchDayFirst | components/Dashboard.tsx:51-52 | what the matcher returns is a match of `D/M/Y…` |
| LogValues.MatchDayFirstComplete | components/Dashboard.tsx:51-52 | every match of the pattern is the one the matcher returns |
| LogValues.TimeParts | components/Dashboard.tsx:58-63 | an empty time part is 00:00:00; otherwise hour, minute and second are `parseInt(x) \|\| 0` of the first three `:`-parts, and 0 for a missing part |
| LogValues.TimePartsOfHourMinute | components/Dashboard.tsx:58-63 | `hh:mm` reads as those two values and 0 seconds |
| LogValues.TimePartsOfLetters | components/Dashboard.tsx:58-63 | two `:`-parts starting with a letter read as 00:00:00 |
| LogValues.LetterIsNotInt | components/Dashboard.tsx:62 | `parseInt` of a text starting with a letter is NaN |
| LogValues.SplitPair | components/Dashboard.tsx:61 | `a:b` splits into a and b when neither holds a colon |
| LogValues.DateOfGroups | components/Dashboard.tsx:54-64 | day and one-based month come from their groups; a year below 100 becomes 2000 + year, a larger one is kept; hour, minute and second are the time parts of the trimmed rest |
| LogValues.FullYear | components/Dashboard.tsx:56 | `if (year < 100) year += 2000`: a year below 100 gains 2000, a larger one is kept |
| LogValues.ParseLogDate | components/Dashboard.tsx:47-67 | a falsy value gives null |
| LogValues.ParseLogDateDayFirst | components/Dashboard.tsx:53-65 | a day-first value is read from its groups, whatever the generic parser does |
| LogValues.ParseLogDateFallback | components/Dashboard.tsx:66-67 | only a truthy value that is not day-first reaches the generic parser |
| LogValues.ParseLogDateOfString | components/Dashboard.tsx:50-65 | a string whose trimmed form is day-first reads as its groups' date |
| LogValues.LogDate | components/Dashboard.tsx:205 | `parseLogDate` of the record's timestamp value (a definition; `StampIsTimestampValue` and `UploadedRecordIsDated` state it) |
| LogFilter.KeepIsConjunction | components/Dashboard.tsx:196-219 | a record is kept exactly when the search, product and machine tests pass and, if its date parses, its day lies within the set bounds |
| LogFilter.Keep | components/Dashboard.tsx:196-219 | the filter callback (a definition; `KeepIsConjunction` states it) |
| LogFilter.MatchesSearch | components/Dashboard.tsx:197-199 | the lower-cased search occurs in the lower-cased product name or structure (a definition; `EmptySearchMatchesAll` states its fixed point) |
| LogFilter.MatchesProduct | components/Dashboard.tsx:200 | "all", or the product name value equals the filter (a definition) |
| LogFilter.MatchesMachine | components/Dashboard.tsx:202-203 | "all", or the machine id value equals the filter (a definition) |
| LogFilter.InDateRange | components/Dashboard.tsx:207-216 | the record's day lies within the set bounds (a definition; `BoundsAreDateRange` states it) |
| LogFilter.SortKey | components/Dashboard.tsx:221-222 | the parsed time value, 0 for an unparsable date (a definition; `FilteredLogs` states the order) |
| LogFilter.BoundsAreDateRange | components/Dashboard.tsx:205-216 | the start and end tests reject exactly the days outside the set bounds |
| LogFilter.StartOfDayMonotone | components/Dashboard.tsx:208-215 | comparing midnights is comparing day numbers |
| LogFilter.EmptySearchMatchesAll | components/Dashboard.tsx:197-199 | an empty search matches every record |
| LogFilter.FilteredLogs | components/Dashboard.tsx:193-225 | the kept records, each as often as in the input, ordered newest first, an unparsable date sorting as 0; records with the same time keep their input order |
| Chart.SelectedPreset | components/Dashboard.tsx:227-230 | none for "all", else the first preset carrying the product name |
| Chart.ActiveTolerance | components/Dashboard.tsx:232-234 | the preset's tolerance for the field when present (0 included), else the default |
| Chart.TimeLabel | components/Dashboard.tsx:240 | "--/--" when the date does not parse |
| Chart.DateShort | components/Dashboard.tsx:242-245 | "--/--/--" when the date does not parse |
| Chart.Bounds | components/Dashboard.tsx:259-261 | the bounds exist exactly when std > 0, and are std ± tol |
| Chart.DiffPercent | components/Dashboard.tsx:250 | 0 unless std > 0; otherwise NaN exactly for a NaN value, else the percentage deviation |
| Chart.PointOf | components/Dashboard.tsx:239-264 | a point carries the field's actual and standard values, their bounds, difference and percentage, and dashes for an unparsable date |
| Chart.ChartWindow | components/Dashboard.tsx:238 | min(20, n) records; element i is record k-1-i |
| Chart.ReversedHeadAscending | components/Dashboard.tsx:238 | the reversed head of a list sorted by decreasing key is sorted by increasing key |
| Chart.ChartWindowAscending | components/Dashboard.tsx:238 | the window of the newest-first list runs oldest first |
| Chart.ChartData | components/Dashboard.tsx:236-266 | min(20, n) points; point i is the callback applied to record i of the window |
| Chart.Points | components/Dashboard.tsx:239-264 | the callback is applied to every record, in order |
| Chart.PointValues | components/Dashboard.tsx:270 | a point contributes its value and std first, then its present bounds; a number is collected exactly when it is one of these |
| Chart.ChartValues | components/Dashboard.tsx:270 | a number is collected exactly when some point has it as its value, its std or a present bound |
| Chart.MinOf | components/Dashboard.tsx:271 | `Math.min` is NaN exactly when a value is NaN, else the least value |
| Chart.MaxOf | components/Dashboard.tsx:272 | `Math.max` is NaN exactly when a value is NaN, else the greatest value |
| Chart.Ceil | components/Dashboard.tsx:275 | `Math.ceil` is the least integer at or above its argument |
| Chart.YAxisDomain | components/Dashboard.tsx:268-276 | [0, 100] for an empty chart; both ends NaN exactly when a collected value is NaN |
| Chart.YAxisDomainBounds | components/Dashboard.tsx:268-276 | the lower end is ≥ 0; the upper end is ≥ max + 5; with no negative value the range holds every value |
| Tolerance.EffectiveTolerance | components/DataCard.tsx:15 | `tolerance ?? default` keeps a given tolerance, 0 included; the default is positive |
| Tolerance.AlertTolerance | components/Dashboard.tsx:338 | `tolerance \|\| default` replaces an absent tolerance and 0 |
| Tolerance.FallbacksDifferOnlyOnZero | components/Dashboard.tsx:338 | the two fallbacks differ exactly for a tolerance of 0 |
| Tolerance.Classify | components/DataCard.tsx:26-32 | green within tol/2, yellow within tol, red otherwise (NaN included) |
| Tolerance.BandsByDistance | components/DataCard.tsx:21-32 | for tol > 0 the bands are \|d\| ≤ tol/2, tol/2 < \|d\| ≤ tol and \|d\| > tol |
| Tolerance.DiffLabel | components/Dashboard.tsx:263 | a leading "+" exactly for a positive deviation, followed by the number's own sign or digit |
| Tolerance.NumberTextIsUnsigned | components/Dashboard.tsx:263 | a number's string form starts with "-", a digit or the N of NaN |
| Fields.ProductNames | components/Dashboard.tsx:138 | the product name of each record, in order |
| Fields.ProductNamesMembers | components/Dashboard.tsx:138 | a value is listed exactly when some record bears it as its product name |
| Fields.MachineLogs | components/Dashboard.tsx:134-136 | the records of the selected machine (all for "all") |
| Fields.MachineProductNames | components/Dashboard.tsx:134-138 | the truthy product names of the machine's records |
| Fields.AvailableProducts | components/Dashboard.tsx:132-140 | the distinct truthy product names of the machine's records, sorted by string form |
| Fields.SetOf | components/Dashboard.tsx:150 | the keys of one schema, as a set |
| Fields.ZonesKeySetMembers | components/Dashboard.tsx:156-161 | a key is collected exactly when one of the zones declares it |
| Fields.MachinesKeySetMembers | components/Dashboard.tsx:147-152 | a key is collected exactly when a zone of some machine declares it |
| Fields.AddZoneKeys | components/Dashboard.tsx:156-161 | the nested `forEach` adds exactly the zones' keys to the set |
| Fields.MachineSpecificFields | components/Dashboard.tsx:142-168 | sorted, repetition-free, never empty, holding exactly the collected fields or "speed" |
| Fields.AllFields | components/Dashboard.tsx:170-179 | the labelled fields and every schema key of every machine |
| Fields.AllMachinesOffersAllFields | components/Dashboard.tsx:145-152 | with the filter at "all", the chartable fields are all known fields |
| Fields.ReconcileProduct | components/Dashboard.tsx:181-185 | the product filter ends "all" or an offered product, and changes only to "all" |
| Fields.ReconcileField | components/Dashboard.tsx:187-191 | the chart field ends on offer when any field is, and changes only to the first one |
| Fields.ReconcileIdempotent | components/Dashboard.tsx:181-191 | both effects settle after one application |
| Fields.CardPreset | components/Dashboard.tsx:593 | the first preset named like the card's product name, "N/A" when the record has none |
| Fields.LogDataKeys | components/Dashboard.tsx:595-600 | the fields whose value is not 0 or whose bare key is present |
| Fields.HasData | components/Dashboard.tsx:597-598 | a field has data when its value is not 0 or its bare key is present (a definition; `LogDataKeys` states it) |
| Fields.TileBand | components/Dashboard.tsx:633-634 | the band of a tile's deviation under the preset's tolerance or the default (a definition) |
| Fields.CardTolerance | components/Dashboard.tsx:633 | `tolerances?.[f] ?? getDefaultTolerance(f)` of the card's preset (a definition; `EffectiveTolerance` states the fallback) |
| Fields.HasAlert | components/Dashboard.tsx:602 | some shown field's difference exceeds its tolerance (a definition; `AlertIsRedTile` states it) |
| Fields.AlertIsRedTile | components/Dashboard.tsx:602-634 | the alert is raised exactly when some shown tile is red for a numeric deviation |
| Kpi.TimeStats | components/Dashboard.tsx:278-291 | the loop's three counters are the counts of records from today, the last seven days and this month |
| Kpi.Count | components/Dashboard.tsx:282-289 | a count is at most the number of records |
| Kpi.CountsToday | components/Dashboard.tsx:285-286 | a parsed date at or after today's midnight (a definition; `Tally` states it) |
| Kpi.CountsWeek | components/Dashboard.tsx:285-287 | a parsed date less than seven days before now (a definition; `Tally` states it) |
| Kpi.CountsMonth | components/Dashboard.tsx:285-288 | a parsed date in this month of this year (a definition; `Tally` states it) |
| Kpi.TodayLabel | components/Dashboard.tsx:290 | `d/m/yyyy` of now, month one-based, unpadded (a definition) |
| Kpi.CountIsFilterLength | components/Dashboard.tsx:282-289 | counting matches is the length of the filter |
| Kpi.CountStep | components/Dashboard.tsx:282-289 | one more record adds one exactly when it passes |
| Kpi.Tally | components/Dashboard.tsx:282-289 | a record adds one to each count whose period its parsed date falls in, and nothing without a date |
| Kpi.TodayWithinWeek | components/Dashboard.tsx:286-287 | a record counted today is counted for the week |
| Kpi.CountMonotone | components/Dashboard.tsx:286-288 | a weaker test counts at least as many records |
| Kpi.TimeStatsBounds | components/Dashboard.tsx:278-291 | today ≤ week ≤ all records, and month ≤ all records |
| Kpi.KpiPreset | components/Dashboard.tsx:338 | the first preset whose name equals the record's product name |
| Kpi.IsAlert | components/Dashboard.tsx:338 | some field's difference exceeds its alert tolerance (a definition; `AlertCount` and `Yield` state its counts) |
| Kpi.IsAlertOf | components/Dashboard.tsx:338 | the alert test as the callback `AlertCount` filters by (a definition) |
| Kpi.AlertCount | components/Dashboard.tsx:338 | at most the number of records, and 0 exactly when no record raises an alert |
| Kpi.ShareBounds | components/Dashboard.tsx:339 | a share lies in [0, 100] and hits either end only at 0 and n |
| Kpi.Yield | components/Dashboard.tsx:339 | in [0, 100]; 0 for no records; 100 exactly without alerts; 0 exactly when every record alerts |
| DataCardView.DiffDisplay | components/DataCard.tsx:23-24 | "✓ OK" exactly for no deviation, otherwise "+" exactly for a positive one |
| DataCardView.CardLabel | components/DataCard.tsx:39 | the label when it is non-empty, else the key |
| DataCardView.Card | components/DataCard.tsx:14-73 | effective tolerance; neutral exactly without a value or standard; "Missing" exactly without a value; the band of the deviation |
| DataCardView.CardBands | components/DataCard.tsx:21-32 | a typed number is green, yellow or red by the size of its deviation |
| DataCardView.NaNIsRed | components/DataCard.tsx:26-32 | a typed NaN is red |
| DataCardView.ZeroToleranceIsStrict | components/DataCard.tsx:15-32 | a tolerance of 0 is kept and turns any deviation red |
| AppTimestamp.FormattedFields | App.tsx:23-28 | each field of the format is two digits reading as its date component (the year mod 100) |
| AppTimestamp.FormatAppTimestamp | App.tsx:22-30 | `dd/mm/yy hh:mm:ss` (a definition; `FormatLayout` and `FormatThenParse` state its layout and round trip) |
| AppTimestamp.JoinedLayout | App.tsx:29 | seventeen characters: the separators at fixed places, the fields between them |
| AppTimestamp.FormatIsJoined | App.tsx:22-30 | the format is the padded fields joined by `/`, ` ` and `:` |
| AppTimestamp.FormatLayout | App.tsx:22-30 | `dd/mm/yy hh:mm:ss`, each field zero-padded to two digits, the year as its last two |
| AppTimestamp.JoinedIsMatch | components/Dashboard.tsx:51 | a formatted timestamp matches the day-first pattern |
| AppTimestamp.TrimTimeText | components/Dashboard.tsx:58 | trimming the time part drops its leading space |
| AppTimestamp.SplitTime | components/Dashboard.tsx:61 | `hh:mm:ss` splits into its three fields |
| AppTimestamp.TimePartsOfText | components/Dashboard.tsx:60-63 | the time fields read back as their values |
| AppTimestamp.DateOfTimestampGroups | components/Dashboard.tsx:54-64 | the groups of a formatted timestamp denote its date, the year mapped into the 2000s |
| AppTimestamp.ParseJoined | components/Dashboard.tsx:47-65 | six fields in the format read back as the date they spell |
| AppTimestamp.FormatThenParse | App.tsx:22-30 | reading a written timestamp restores day, month, hour, minute and second, and the year's last two digits in the 2000s |
| AppTimestamp.RoundTripExactlyThisCentury | App.tsx:25 | the round trip is the identity exactly for the years 2000-2099 |
| AppTimestamp.CenturyOfTwoDigitYear | components/Dashboard.tsx:57 | moving a year into the 2000s keeps it exactly in 2000-2099 |
| AppTimestamp.DayFirstExample | components/Dashboard.tsx:47-65 | "05/03/24 14:30:05" is 5 March 2024, 14:30:05 |
| Presets.MachinePresets | App.tsx:79-84 | exactly the presets of the machine matching the search, with their multiplicities; none without a machine |
| Presets.OnMachine | App.tsx:80 | `p.machineId === currentMachineId` (a definition; `MachinePresets` states its use) |
| Presets.MatchesSearch | App.tsx:81-84 | the lower-cased search occurs in the lower-cased product name or structure (a definition; `EmptySearchMatches` states its fixed point) |
| Presets.MachinePresetsInOrder | App.tsx:79-84 | the list is one filter of `presets` by both tests, order kept |
| Presets.EmptySearchMatches | App.tsx:81-84 | an empty search matches every preset |
| App.AvailableModels | App.tsx:60 | the defaults, then the custom models in their order |
| App.InitialModelAvailable | App.tsx:16-35 | the initial model is always offered |
| App.CurrentMachine | App.tsx:62-64 | a machine with the selected id, or null exactly when there is none |
| App.CurrentPreset | App.tsx:66-68 | a preset with the selected id, or null exactly when there is none |
| App.EnvKey | App.tsx:73 | the environment key, "" when absent |
| App.ActiveApiKey | App.tsx:70-75 | the key of the first stored entry with the selected id, else the environment's key |
| App.FilteredPresets | App.tsx:77-85 | empty without a (non-empty) machine id, else the machine's presets matching the search |
| App.FilteredPresetsExactly | App.tsx:77-85 | membership iff machine and search match, in the order of `presets` |
| App.CaptureSession.constructor | App.tsx:34-54 | no machine, zone, preset or reading; the initial model |
| App.CaptureSession.MachineChange | App.tsx:87-93 | selects the machine ("" selects none), clears the zone, readings and zone states, keeps the preset and the model |
| Upload.StandardOf | App.tsx:177 | `currentPreset?.data?.[key]` is defined exactly when the preset has a standard for the key |
| Upload.ToNumber | App.tsx:180 | a number is kept; null and blank or whitespace-only text are 0; `true`/`false` are 1/0; undefined is NaN; other text is the value of its trimmed decimal literal, and NaN exactly when it is none |
| Upload.Difference | App.tsx:180 | the reading minus the standard; NaN exactly when the reading does not convert |
| Upload.LastWrite | App.tsx:176 | the value of the last assignment to a key, none exactly when no assignment names it |
| Upload.ApplyLookup | App.tsx:173-183 | after the assignments a key holds its last assigned value, else its value before |
| Upload.ApplyAppend | App.tsx:173-183 | carrying out `a + b` is carrying out `a`, then `b` |
| Upload.ApplyOne | App.tsx:176 | one assignment updates one key |
| Upload.ApplyFieldWrites | App.tsx:176-181 | a reading sets its key, and with a standard also `std_<k>` and `diff_<k>` |
| Upload.Metadata | App.tsx:163-171 | the seven metadata keys, "No Product" and "No Structure" without a preset name or structure |
| Upload.UploadPayload | App.tsx:159-183 | nothing exactly when the sheet URL or the machine is missing; else the metadata overwritten by every reading's assignments |
| Upload.BuildPayload | App.tsx:159-183 | the built record is the specified one |
| Upload.WriteZones | App.tsx:173-183 | the outer loop carries out every zone's assignments in order, skipping falsy entries |
| Upload.WriteZone | App.tsx:175-182 | the inner loop carries out one zone's assignments in order |
| Upload.WriteField | App.tsx:176-181 | the loop body carries out exactly one reading's assignments |
| Upload.ZoneStep | App.tsx:175-182 | one more reading appends its assignments |
| Upload.AllStep | App.tsx:173-183 | one more zone appends its assignments |
| Upload.PayloadContents | App.tsx:173-183 | each key holds its last assigned value, else its metadata value |
| Upload.WrittenKeys | App.tsx:173-183 | only reading keys are written, and `std_`/`diff_` keys only where a standard exists |
| Upload.ZoneWrittenKeys | App.tsx:175-182 | an assignment of a zone names one of its readings' keys or their companions |
| Upload.StdPrefixIsNotActSuffix | App.tsx:179 | a `std_` key never collides with an `_act` key of the same field |
| Upload.ActualReadBack | App.tsx:176 | the dashboard reads a written reading back as its coerced value |
| Upload.CompanionKeysDiffer | App.tsx:176-181 | a key, its `std_`/`diff_` companions and the dashboard's `_std`/`Std_`/`_diff`/`Diff_` aliases are pairwise distinct where the read-back needs it |
| Upload.FieldWritesFrame | App.tsx:176-181 | a reading's assignments set its key and change no key other than its `std_`/`diff_` companions |
| Upload.ActualRead | components/Dashboard.tsx:25-36 | a record with no `<k>_act` reads the value under `<k>` |
| Upload.StandardRead | components/Dashboard.tsx:25-36 | a record holding the standard under `std_<k>`, with no other alias, reads it as the standard |
| Upload.DifferenceRead | components/Dashboard.tsx:25-36 | a record holding the difference under `diff_<k>`, with no other alias, reads it back when non-zero, and as 0 when zero |
| Upload.StandardReadBack | App.tsx:179 | the dashboard reads the written standard back |
| Upload.DifferenceReadBack | App.tsx:180 | the dashboard reads the written difference back (0 for a zero difference) |
| Upload.TimestampSurvives | App.tsx:165-181 | assignments to other keys keep the metadata's timestamp |
| Upload.StampIsTimestampValue | components/Dashboard.tsx:205 | a non-empty `timestamp` string is the record's time, whatever `Timestamp` and `Thời gian` hold |
| Upload.UploadedRecordIsDated | App.tsx:165 | an uploaded record's date reads back as the upload time, the year mapped into the 2000s |
| Settings.ZoneKeysMembership | components/SettingsModal.tsx:73-80 | a key is listed exactly when a zone's schema declares it |
| Settings.SchemaKeys | components/SettingsModal.tsx:69-82 | empty without a current machine; otherwise the keys its zones declare, each once |
| Settings.CurrentMachineSchemaKeys | components/SettingsModal.tsx:69-82 | the memo's loops compute the specified keys |
| Settings.CollectZoneKeys | components/SettingsModal.tsx:73-80 | the zone loop gives the first occurrences of the zones' keys |
| Settings.AddKeys | components/SettingsModal.tsx:77 | adding one zone's keys to the set extends its first occurrences |
| Settings.FilteredPresets | components/SettingsModal.tsx:84-91 | exactly the presets with the current machine id that match the search |
| Settings.HeaderAgreesWithDialog | components/SettingsModal.tsx:84-91 | the dialog lists what the header lists, except for the machine id "" |
| Settings.SavedMachine | components/SettingsModal.tsx:98-102 | the draft's id or `m_<time>`, the trimmed name, the zones or none |
| Settings.NameIsBlank | components/SettingsModal.tsx:96 | no name, or one that trims to "" (a definition; `SavedMachines` states its effect) |
| Settings.FreshMachineId | components/SettingsModal.tsx:99 | `m_` followed by the digits of the time of the save |
| Settings.SavedMachines | components/SettingsModal.tsx:95-108 | a blank name changes nothing; no id appends; an id replaces the first machine with it, keeping length and every other entry |
| Settings.ReplaceFirstWithId | components/SettingsModal.tsx:104-105 | same length; the first machine with the id is replaced and every other entry kept; no machine with the id leaves the list as it was |
| Settings.AssignFirstWithId | components/SettingsModal.tsx:104-105 | the `findIndex` and the indexed assignment compute the specified list |
| Settings.SaveKeepsMachines | components/SettingsModal.tsx:103-108 | every machine id survives a save |
| Settings.MachineEditor.constructor | components/SettingsModal.tsx:43 | the draft starts with no zones, and the editor is closed |
| Settings.MachineEditor.SaveMachine | components/SettingsModal.tsx:95-119 | the list becomes the specified one; the editor closes unless the name is blank |
| Settings.MachineEditor.RemoveMachine | components/SettingsModal.tsx:388 | exactly the machines with that id go, the rest keep their order |
| Settings.EditedId | components/SettingsModal.tsx:146 | none when creating; when editing, the id of the first preset with the typed name, present exactly when one exists |
| Settings.CreateRequest | components/SettingsModal.tsx:136-152 | refused exactly for a blank name or structure or no machine; otherwise the trimmed fields, the maps and the machine id are sent |
| Settings.BuildRequest | components/SettingsModal.tsx:136-152 | the guard and payload compute the specified request |
| Settings.EditedPresetKeepsItsId | components/SettingsModal.tsx:146 | an unchanged edited preset is saved under its own id when no earlier preset bears its name |
| Settings.PresetForm.EditPreset | components/SettingsModal.tsx:121-125 | the form holds the preset, in edit mode |
| Settings.PresetForm.CopyPreset | components/SettingsModal.tsx:127-134 | the form holds `<name> (Copy)` and the preset's values, to be created |
| Settings.PresetForm.CreatePreset | components/SettingsModal.tsx:136-158 | returns the specified request; leaves create and edit mode after one, and changes nothing after a refusal |
| Settings.WithLabel | components/SettingsModal.tsx:361 | an empty key changes nothing; otherwise only that key is set |
| Settings.WithoutLabel | components/SettingsModal.tsx:371 | only that key is removed |
| Settings.DeleteUndoesAdd | components/SettingsModal.tsx:361-371 | deleting a newly added label restores the map |
| Settings.LabelEditor.AddLabel | components/SettingsModal.tsx:361 | the labels become the specified ones, and the form clears after an add |
| Settings.LabelEditor.DeleteLabel | components/SettingsModal.tsx:371 | one label goes, and the form is untouched |
| Settings.ConfigForm.AddApiKey | components/SettingsModal.tsx:174-179 | a no-op when a field is empty; otherwise exactly one key `key_<time>` is appended and both fields clear |
| Settings.ConfigForm.AddScriptUrl | components/SettingsModal.tsx:181-186 | a no-op when a field is empty; otherwise exactly one script `script_<time>` is appended and both fields clear |
| Settings.ConfigForm.AddCustomModel | components/SettingsModal.tsx:188-193 | a no-op when a field is empty; otherwise exactly one model is appended and both fields clear |
| Settings.ConfigForm.RemoveApiKey | components/SettingsModal.tsx:444 | exactly the keys with that id go; the other lists and every text field are unchanged |
| Settings.ConfigForm.RemoveScriptUrl | components/SettingsModal.tsx:496 | exactly the scripts with that id go; the other lists and every text field are unchanged |
| Settings.ConfigForm.RemoveCustomModel | components/SettingsModal.tsx:468 | exactly the custom models with that id go; the defaults stay offered; the other lists and every text field are unchanged |
| Settings.AddedModelIsOfferedLast | App.tsx:60 | a model just added is offered last, after the earlier list |

## Left out

- Rendering, styling and charts: the JSX, `CustomDataLabels`, `CustomTooltip`, `StatBox`, the `KpiCard` markup and the recharts properties.
- Network and persistence: every `fetch`, `localStorage`, `alert` and the `setTimeout` delay. A handler's effect is modelled up to the request it would send.
- `services/geminiService.ts`, `components/ImageUploader.tsx`, `components/ZoneView.tsx` and `constants.ts`. These are not part of this model: a foreign SDK call, file reading, and UI glue.
- `JSON.parse` of a zone schema: a schema is held already parsed as its list of property keys, or None.
- The engine's generic `new Date(str)` parser (components/Dashboard.tsx:66-67) is a parameter. The date inputs' `new Date(startDate)` (components/Dashboard.tsx:210, 214) is taken as an already-converted date.
- Chart.TimeLabel, Chart.DateShort, Kpi.TodayLabel, AppTimestamp.FormatAppTimestamp: these print the date's fields as given, not as JavaScript's getters return them after normalisation; a day or month out of range (31/02) prints as written, where JavaScript would print the carried date (2/3).
- Time zones: local time is UTC. JavaScript's clipping of out-of-range time values and Invalid Date are not modelled.
- `Date.now()`: generated ids take the time as a `stamp` parameter, and the upload takes `now` as a parameter.
- Chart.PointOf: the `toFixed(1)` rounding of `diffValue` and `diffPercent` is not modelled; both are exact.
- Kpi.Yield: the `toFixed(1)` rounding is not modelled.
- Upload.Difference: the `toFixed(2)` rounding is not modelled.
- DataCardView.DiffDisplay: the `toFixed(1)` rounding is not modelled.
- JsRuntime.NumberToString: JavaScript's shortest round-trip rendering of doubles is not modelled. Integers are exact; a fraction is truncated to six digits.
- JsRuntime.Lower: only ASCII letters are lower-cased; Unicode case mapping is not modelled.
- Sorting.SortByString: strings are compared by code point, not by UTF-16 code unit. The two orders differ only for characters outside the Basic Multilingual Plane.
- Upload.ToNumber: exponents, hexadecimal and binary literals, and `Infinity` are not modelled.
- JsRuntime.ParseFloat: exponents and `Infinity` are not modelled. The inputs it receives are already stripped to `-0-9.`, so neither can occur.
- Number: infinities and signed zero are not modelled.
- AppTimestamp.FormatThenParse: requires a year of at least 10. A one-digit year gives a one-character year field, which the day-first pattern rejects, so the generic parser would decide.
- Upload.WriteZones: the readings of a zone are taken in the order the capture produced them. JavaScript's `Object.entries` lists integer-like keys first, in ascending order, and that reordering is not modelled.
- Upload.BuildPayload: clearing `data` and `uiState` after a successful upload, and the refresh that follows, are not modelled (App.tsx:187-189).
- Settings.PresetForm.CreatePreset: the request is taken to succeed. After a failed request the source keeps the form open, which is not modelled.
- Settings.MachineEditor.SaveMachine: the `save_machines` request is not modelled.
- The zone editor of the machine form (components/SettingsModal.tsx:395-411) is not modelled.
- The form resets of the "new preset" and "new/edit machine" buttons are not modelled (components/SettingsModal.tsx:238, 382, 387). Only the initial state of the machine draft is modelled.
- The URL, label and configuration sync handlers are not modelled (components/SettingsModal.tsx:93, 160-172, 195): each is a request.
- `handleSelectPreset` and `fetchAllData` of App.tsx are not modelled: they do nothing but set state and make requests.
- Concurrency between React state updates is not modelled: each handler is one atomic step on the state it reads.
