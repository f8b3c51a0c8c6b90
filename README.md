# DigiNoise, modelled in Dafny

DigiNoise is a macOS tool that sends a few harmless web requests a day, at
random times, to blur its user's online footprint. A daemon started by launchd
runs one *tick* and then exits after scheduling the next one. A tick:

1. loads the configuration;
2. stops if the generator is not running;
3. resets the daily counter on a new calendar day;
4. defers until 00:01 tomorrow once the daily limit is reached;
5. defers until the active-hours window opens;
6. picks a random endpoint from the candidates that are left;
7. counts a 2xx answer;
8. schedules the next run one to six hours later.

The candidates come from a catalog of endpoints. Each endpoint belongs to one of
eleven categories, and each category can be switched off. A *persona* (General,
Korean Gymnast, Sports Fan, ...) selects its own endpoint list. The tool has
three front ends:

- the `diginoise` command line, in three revisions;
- a persona-aware command set;
- a menu-bar app with a persona picker and a settings window.

This project models that core:

- the configuration record and its daily quota (`ConfigState`);
- the time arithmetic (`Clock`, `NoiseGenerator`);
- the tick's gating and bookkeeping, as one method (`NoiseGenerator.RunTick`). Each revision instantiates it with its own candidate pool and User-Agent:
  - `NoiseGenerator.Generate`: the shared library, with a persona and a category filter;
  - `ModifiedCommands.GenerateForPersona`: the persona's list, unfiltered;
  - `LegacyCli.Generate`: its own 49-endpoint catalog, filtered;
  - `DigiNoiseCli.Generate`: the shared catalog, filtered, with no persona;
- the catalog and personas as data (`Catalog`). Only categories matter; URLs and descriptions are kept as names;
- the `persona set` and `persona info` commands (`PersonaCommands`);
- the menu-bar persona picker (`PersonaViews`);
- the `start`, `stop`, `status`, `config` and `config categories` commands (`CliCommands`);
- the `log` command and the menu's recent entries (`LogReader`);
- the menu-bar app's state, count and steppers (`MenuBarApp`);
- the `Color(hex:)` decoder (`HexColor`).

How the model represents the outside world:

- **Time** is an `Instant`: a day index plus a second of the day. Days are 86400 s long. Whether the calendar can build a date is an input (`Calendar`), so the source's fallback intervals stay reachable.
- **Persistence** is a `ConfigStore` object. Its `file` field is what `Config.load()` can decode, and `None` means missing or undecodable. Its ghost `saved` field records every `save()`.
- **Randomness** (the endpoint, the backoff) is a nondeterministic choice. The contracts hold for every choice.
- **The network's answer** is an input (`Exchange`).
- **Other inputs:** whether the service is installed, and the log file's text.

Points where the code behaves differently from what its names suggest:

- `Color(hex:)` uses `trimmingCharacters(in: CharacterSet.alphanumerics.inverted)`, which removes non-alphanumerics only at both ends, so `"F#F"` keeps its `#` (`HexColor.TrimKeepsInterior`).
- In Sources/Shared/Personas.swift, `canRunToday` is a non-mutating getter that calls the mutating `checkAndResetDaily()`. As written it does not compile. The model gives it the semantics of Sources/CLI/main.swift:59-64, a `mutating get` that resets first and then compares.
- The command line accepts a daily limit of 0 to 50. The menu's stepper allows only 1 to 50 (`MenuBarApp.MenuRangesNarrower`).

Sources/CLI/DigiNoiseCLI.swift repeats the `start`, `stop`, `status`, `config`,
`config categories` and `log` commands of Sources/CLI/main.swift. The two copies
differ only in printed text. The rows below cite main.swift, and the same
contract holds for DigiNoiseCLI.swift:226-534. `LaunchDHelper.stop` in
Sources/MenuBar/DigiNoiseMenuBarApp.swift:125-129 performs exactly the steps of
`CliCommands.Stop`.

## Model

| member | source | states |
|---|---|---|
| Clock.AddDay | Sources/Shared/NoiseGenerator.swift:131 | adding a day moves an instant exactly 86400 s later, or fails |
| Clock.SetTime | Sources/Shared/NoiseGenerator.swift:132 | setting `hour:minute` keeps the day and lands on that clock time; succeeds exactly for valid hours and minutes on a working calendar |
| Clock.HourOf | Sources/Shared/NoiseGenerator.swift:106 | the hour component lies in 0-23 and brackets the instant's second |
| Catalog.PersonaEndpoints | Sources/Shared/Personas.swift:41-353 | every persona's endpoint list is non-empty |
| Catalog.AllExtendsDefault | Sources/Shared/Personas.swift:470-507 | `APIEndpoint.all` is `default` followed by 12 endpoints, all of category weather |
| Catalog.FirstOfCategory | Sources/Shared/Personas.swift:377-467 | every one of the eleven categories occurs in `APIEndpoint.default` |
| Catalog.CategoriesOfGeneral | Sources/Shared/Personas.swift:470-507 | the general catalog uses every category |
| Catalog.PersonaCategoriesExact | Sources/Shared/Personas.swift:41-353 | the general persona's list is exactly `APIEndpoint.all`; each persona's list uses exactly the set of categories `PersonaCategories` tabulates |
| Catalog.CategoriesOfSportsFan | Sources/Shared/Personas.swift:246-276 | the Sports Fan list uses the sports category only |
| ConfigState.CategorySettings.With | Sources/Shared/Personas.swift:558-570 | assigning one category's switch gives that switch the new value |
| ConfigState.WithOthers | Sources/Shared/Personas.swift:558-570 | assigning one switch leaves every other category's switch unchanged |
| ConfigState.SettingsExtensional | Sources/Shared/Personas.swift:558-570 | two settings values that agree on every category are equal |
| ConfigState.DefaultConfigValues | Sources/Shared/Personas.swift:512-519 | a default record is stopped, with limit 5, window 7-23, count 0, the general persona and all eleven categories on |
| ConfigState.Load | Sources/Shared/Personas.swift:524-530 | `load()` never fails: it returns the decoded record, or exactly `Config()` stamped now, whose values `DefaultConfigValues` lists (stopped, limit 5, window 7-23, count 0, general persona, all categories on) |
| ConfigState.ResetDaily | Sources/Shared/Personas.swift:542-549 | after the reset the record is dated today; the count is kept or zeroed; only count and date can change; the record is unchanged exactly on the same day |
| ConfigState.ResetWrites | Sources/Shared/Personas.swift:542-549 | the reset writes at most one record, and none exactly on the same day |
| ConfigState.ResetIdempotent | Sources/Shared/Personas.swift:544 | a second reset at the same instant changes nothing and writes nothing |
| ConfigState.CanRunTodayExamples | Sources/Shared/Personas.swift:551-554 | limit 5 with count 5 blocks and count 4 allows on the same day; on a new day any positive limit allows |
| ConfigState.ConfigStore.Save | Sources/Shared/Personas.swift:532-540 | a save makes the record the file's content and appends it to the write history |
| ConfigState.CheckAndResetDaily | Sources/Shared/Personas.swift:542-549 | the method returns the reset record and saves exactly the records `ResetWrites` names |
| ConfigState.CanRunTodayCheck | Sources/CLI/main.swift:59-64 | the mutating getter resets first (with its save) and answers `count < limit` of the reset record |
| NoiseGenerator.DegenerateWindowClosed | Sources/Shared/NoiseGenerator.swift:105-111 | a window whose start equals its end is closed at every hour |
| NoiseGenerator.WindowComplement | Sources/Shared/NoiseGenerator.swift:105-111 | an overnight window is exactly the complement of the daytime window with the hours swapped |
| NoiseGenerator.ActiveHoursPerDay | Sources/Shared/NoiseGenerator.swift:105-111 | over one day the window is open for `(end - start) mod 24` hours |
| NoiseGenerator.DaytimeHoursBelow | Sources/Shared/NoiseGenerator.swift:110 | a daytime window is open exactly at the hours from start up to end |
| NoiseGenerator.OvernightHoursBelow | Sources/Shared/NoiseGenerator.swift:107-108 | an overnight window is open exactly before end and from start on |
| NoiseGenerator.ActiveHoursWaitSign | Sources/Shared/NoiseGenerator.swift:113-143 | the wait is 0 exactly inside the window and positive outside it whenever a day can be added |
| NoiseGenerator.ActiveHoursWaitTarget | Sources/Shared/NoiseGenerator.swift:113-143 | outside the window the wait ends exactly at `startHour:00`, which is tomorrow once a daytime window has closed and today otherwise; it is at most a day |
| NoiseGenerator.SecondsUntilTomorrow | Sources/Shared/NoiseGenerator.swift:145-153 | the quota deferral lies in [61, 86460] s, including the 86400 fallback |
| NoiseGenerator.TomorrowTarget | Sources/Shared/NoiseGenerator.swift:145-153 | with a working calendar the quota deferral ends at 00:01:00 of the next day |
| NoiseGenerator.EnabledOnly | Sources/Shared/NoiseGenerator.swift:38-52 | an endpoint survives the category filter iff it was a candidate and its category is on; the filter never grows the list |
| NoiseGenerator.EnabledOnlyConcat | Sources/Shared/NoiseGenerator.swift:38-52 | filtering distributes over concatenation, so relative order is kept |
| NoiseGenerator.EnabledOnlyKeepsAll | Sources/Shared/NoiseGenerator.swift:38-52 | with every used category on, the filter keeps the whole list |
| NoiseGenerator.EnabledOnlyEmpty | Sources/Shared/NoiseGenerator.swift:54-58 | the filter is empty iff no candidate's category is on, and in particular with every category off |
| NoiseGenerator.StoppedTickInert | Sources/Shared/NoiseGenerator.swift:14-17 | a stopped daemon decides `Stopped`, changes nothing and writes nothing |
| NoiseGenerator.MissingFileTickInert | Sources/Shared/NoiseGenerator.swift:12-17 | with no readable config file the loaded default is stopped, so the tick decides `Stopped` and writes nothing |
| NoiseGenerator.GateOrder | Sources/Shared/NoiseGenerator.swift:19-58 | an exhausted quota defers to tomorrow whatever the hours; the hours are checked only after the quota passes, and the candidates only inside the window |
| NoiseGenerator.TickCountStep | Sources/Shared/NoiseGenerator.swift:77-81 | a tick adds exactly 1 to the reset count iff a request was sent and answered 2xx, and changes no other field |
| NoiseGenerator.TickKeepsQuota | Sources/Shared/NoiseGenerator.swift:21-25 | a tick never pushes the count past the daily limit |
| NoiseGenerator.TickWritesAgree | Sources/Shared/NoiseGenerator.swift:19-81 | a tick saves at most two records, and the last one is the configuration the tick ends with |
| NoiseGenerator.LimitOneScenario | Sources/Shared/NoiseGenerator.swift:19-81 | with limit 1, the first tick inside the window requests; after a success the next tick that day defers to tomorrow |
| NoiseGenerator.ScheduleNextRun | Sources/Shared/NoiseGenerator.swift:93-103 | the next run is the given interval, or a random one in [3600, 21600] s |
| NoiseGenerator.RunTick | Sources/Shared/NoiseGenerator.swift:11-91 | the tick's decision is `Gate`, and it saves exactly `TickWrites`. A request is sent iff the decision is an attempt with a valid URL, to a candidate, with the revision's User-Agent and a 30 s timeout. Nothing is rescheduled iff stopped; a deferral reschedules after its wait, otherwise after [3600, 21600] s |
| NoiseGenerator.SharedPoolIsPersonaList | Sources/Shared/NoiseGenerator.swift:34-52 | the shared pool is the current persona's list filtered by the enabled categories (general included) |
| NoiseGenerator.Generate | Sources/Shared/NoiseGenerator.swift:11-91 | the shared tick satisfies the tick contract with the persona-or-catalog pool, filtered |
| PersonaCommands.Lower | Sources/CLI/PersonaCommands.swift:39 | lower-casing keeps the length and lower-cases every character |
| PersonaCommands.LowerRawValueInjective | Sources/CLI/PersonaCommands.swift:46-50 | no two personas' names agree once lower-cased, so a lookup is unambiguous |
| PersonaCommands.FindIn | Sources/CLI/PersonaCommands.swift:46-50 | `first(where:)` returns a listed persona whose lower-cased name matches, and `nil` only when none matches |
| PersonaCommands.ValidateFinds | Sources/CLI/PersonaCommands.swift:37-50 | `validate` passes exactly when `run`'s lookup finds a persona |
| PersonaCommands.FindPersonaIff | Sources/CLI/PersonaCommands.swift:37-50 | the lookup finds persona p exactly for the names equal to p's raw value up to case; the exact raw value always finds p |
| PersonaCommands.CollectCategories | Sources/CLI/PersonaCommands.swift:72-75 | the loop collects exactly the categories the endpoints use |
| PersonaCommands.OfCategoryNonEmpty | Sources/CLI/PersonaCommands.swift:67 | a category's filtered list is non-empty iff the endpoints use that category |
| PersonaCommands.EnableUnionMeaning | Sources/CLI/PersonaCommands.swift:80-123 | afterwards a category is on iff it was on before or the persona uses it (union, no reset) |
| PersonaCommands.EnabledNamesEmpty | Sources/CLI/PersonaCommands.swift:80-126 | the chain reports no enabled category iff the category set is empty |
| PersonaCommands.SummaryAscending | Sources/CLI/PersonaCommands.swift:63-69 | the summary lines follow strictly ascending category names |
| PersonaCommands.AmongAscending | Sources/CLI/PersonaCommands.swift:66 | picking categories out of a name-sorted order keeps them sorted by name |
| PersonaCommands.SortedCategoriesAscending | Sources/CLI/PersonaCommands.swift:66 | the categories listed by raw value are in strictly ascending string order |
| PersonaCommands.SummaryCoversUsed | Sources/CLI/PersonaCommands.swift:63-69 | each summary line has a positive count, and every category used has a line |
| PersonaCommands.SummaryTotal | Sources/CLI/PersonaCommands.swift:63-69 | the summary's counts add up to the number of endpoints |
| PersonaCommands.AmongInCaseOrder | Sources/CLI/PersonaCommands.swift:167-168 | walking `allCases` and keeping the categories present yields them in `allCases` order |
| PersonaCommands.GroupsProperties | Sources/CLI/PersonaCommands.swift:165-175 | `info` groups are non-empty, hold only their own category, follow `allCases` order strictly (so each category at most once), and their sizes add up to the number of endpoints |
| PersonaCommands.EnableForEndpoints | Sources/CLI/PersonaCommands.swift:71-123 | the switches become the union with the used categories, with the names in `allCases` order; nothing is enabled only for an empty list |
| PersonaCommands.SetRun | Sources/CLI/PersonaCommands.swift:44-133 | an unknown name fails and leaves the store alone. Otherwise it saves the persona (limit, hours and count untouched), then saves the union of the switches with the persona's categories, and reports the summary |
| PersonaCommands.SetMakesWholeListEligible | Sources/CLI/PersonaCommands.swift:72-126 | after `persona set`, the shared tick's pool is the persona's whole list |
| PersonaCommands.Info | Sources/CLI/PersonaCommands.swift:142-184 | `info` succeeds iff the name validates, for the matching persona, with its endpoint count, its groups as `GroupsProperties` describes them, and whether it is current |
| PersonaCommands.CurrentEndpoints | Sources/CLI/PersonaCommands.swift:189-191 | the current persona's list is never empty, uses exactly the persona's categories, and is the whole catalog for the general persona |
| ModifiedCommands.PersonaUserAgentShape | Sources/CLI/ModifiedCommands.swift:52 | the User-Agent extends `DigiNoise-CLI/1.0`, ends in `)`, and determines the persona |
| ModifiedCommands.GenerateForPersona | Sources/CLI/ModifiedCommands.swift:15-70 | the persona tick satisfies the tick contract with the persona's unfiltered list and the persona User-Agent |
| ModifiedCommands.PersonaTickNeverSkips | Sources/CLI/ModifiedCommands.swift:41 | the force-unwrapped random choice is safe: past the guards the persona tick always attempts a request |
| ModifiedCommands.PersonaTickIgnoresCategories | Sources/CLI/ModifiedCommands.swift:19 | the persona tick's decision and effects do not depend on the category switches |
| ModifiedCommands.AllOffStillRequests | Sources/CLI/ModifiedCommands.swift:19-41 | with every category off, the shared tick skips while the persona tick still requests |
| PersonaViews.UpdateCategoriesForPersona | Sources/MenuBar/PersonaViews.swift:52-89 | reloads and saves once with every category on, whatever the persona or the prior switches; persona, limit, hours and count are kept |
| PersonaViews.OnChange | Sources/MenuBar/PersonaViews.swift:32-40 | the picker saves the persona first, then the all-on switches |
| PersonaViews.ResetThenEnableIsAllEnabled | Sources/MenuBar/PersonaViews.swift:58-86 | enabling any categories on top of the all-on default leaves all on |
| PersonaViews.PoliciesDiffer | Sources/MenuBar/PersonaViews.swift:58-86 | from all switches off, `persona set` to Sports Fan turns on only sports, while the picker turns on all |
| PersonaViews.PickerMakesWholeListEligible | Sources/MenuBar/PersonaViews.swift:52-89 | after the picker, the shared tick's pool is the persona's whole list |
| LegacyCli.LegacyWitness | Sources/CLI/main.swift:119-242 | every category occurs in this revision's catalog |
| LegacyCli.Generate | Sources/CLI/main.swift:247-323 | this revision's tick satisfies the tick contract with its own catalog, filtered by category |
| LegacyCli.LegacyPoolEmptyIff | Sources/CLI/main.swift:270-290 | the pool is empty iff every category is off, and it ignores the persona |
| DigiNoiseCli.Generate | Sources/CLI/DigiNoiseCLI.swift:7-83 | this revision's tick satisfies the tick contract with the shared catalog, filtered, and no persona |
| DigiNoiseCli.CatalogPoolIgnoresPersona | Sources/CLI/DigiNoiseCLI.swift:30-50 | the pool is the shared generator's general-persona pool whatever the persona, and it is empty iff every category is off |
| CliCommands.Start | Sources/CLI/main.swift:466-494 | when not installed it fails and the store is untouched; otherwise it saves the loaded record marked running |
| CliCommands.Stop | Sources/CLI/main.swift:496-509 | saves the loaded record marked stopped, with nothing else changed |
| CliCommands.CountTrueExtremes | Sources/CLI/main.swift:516-528 | the count equals the list length iff all are true, and 0 iff none is |
| CliCommands.CountTrueFlip | Sources/CLI/main.swift:516-528 | flipping one entry moves the count by exactly one |
| CliCommands.EnabledCountExtremes | Sources/CLI/main.swift:516-528 | the `status` count is 11 iff every category is on and 0 iff every one is off |
| CliCommands.EnabledCount | Sources/CLI/main.swift:516-528 | the `status` count of enabled categories is at most 11 |
| CliCommands.EnabledCountDefault | Sources/CLI/main.swift:516-528 | the default switches count 11 |
| CliCommands.EnabledCountFlip | Sources/CLI/main.swift:516-528 | toggling one category moves the count by exactly one |
| CliCommands.SwitchesIndex | Sources/CLI/main.swift:516-528 | the counted list holds the eleven switches in `allCases` order |
| CliCommands.ValidateOptions | Sources/CLI/main.swift:557-567 | validation passes iff the limit is in 0-50 and both hours are in 0-23; the first bad option in the order limit, start, end is the one reported |
| CliCommands.ApplyOptionsFrame | Sources/CLI/main.swift:569-591 | exactly the given options are assigned; all other fields keep their values |
| CliCommands.ValidatedOptionsKeepRanges | Sources/CLI/main.swift:557-591 | applying validated options to an in-range record keeps it in range, and the defaults are in range |
| CliCommands.ConfigCommand | Sources/CLI/main.swift:557-597 | invalid options fail before anything is written; valid ones are assigned and the record is always saved; the current values are shown iff no option was given |
| CliCommands.ApplyFlagsAt | Sources/CLI/main.swift:662-695 | per category, `--no-x` forces off (both flags give off), `--x` alone flips, and no flag keeps the value |
| CliCommands.ApplyCategoryFlags | Sources/CLI/main.swift:660-700 | the chain of flag checks yields `ApplyFlags` and notes a change iff any flag was given |
| CliCommands.CategoriesCommand | Sources/CLI/main.swift:660-716 | the switches are updated by the flags and saved iff any flag was given; otherwise the store is untouched |
| LogReader.SplitLines | Sources/CLI/main.swift:765 | splitting on newlines always yields at least one piece, none containing a newline |
| LogReader.SplitLogText | Sources/CLI/main.swift:765 | a log written line by line splits back into its lines plus the empty piece after the last line feed |
| LogReader.LogRoundTrip | Sources/CLI/main.swift:765-766 | the non-empty lines of such a log are its lines, and the last N of them are its last N lines in file order |
| LogReader.NonEmptyKeeps | Sources/CLI/main.swift:765 | dropping empty pieces from lines plus the final empty piece gives the lines back |
| LogReader.Suffix | Sources/CLI/main.swift:766 | `suffix(n)` has length min(n, count) and is a suffix of the list |
| LogReader.LogTail | Sources/CLI/main.swift:754-773 | a missing or unreadable file is reported. Otherwise the command shows the last min(N, count) non-empty lines, in file order. A negative N traps |
| LogReader.RecentEntries | Sources/MenuBar/DigiNoiseMenuBarApp.swift:85-89 | nothing when the log cannot be read; otherwise exactly the last min(`count`, n) of the n non-empty lines, in file order |
| LogReader.RecentEntriesMatchLogTail | Sources/MenuBar/DigiNoiseMenuBarApp.swift:85-89 | the menu's recent entries equal what `log --lines count` shows for the same text, and for a log written line by line they are its last `count` lines |
| MenuBarApp.Toggled | Sources/MenuBar/DigiNoiseMenuBarApp.swift:153-163 | the toggle flips the running flag and nothing else |
| MenuBarApp.ToggledTwice | Sources/MenuBar/DigiNoiseMenuBarApp.swift:153-163 | toggling twice gives the record back |
| MenuBarApp.AppState.constructor | Sources/MenuBar/DigiNoiseMenuBarApp.swift:133-145 | a new app state mirrors the file, the last 8 log lines and the installed answer |
| MenuBarApp.AppState.Refresh | Sources/MenuBar/DigiNoiseMenuBarApp.swift:147-151 | refresh reloads the record, the last 8 non-empty log lines and the installed answer |
| MenuBarApp.AppState.ToggleRunning | Sources/MenuBar/DigiNoiseMenuBarApp.swift:153-163 | saves the cached record with the running flag flipped; asks launchd to start iff it is now running; afterwards mirrors the new file |
| MenuBarApp.AppState.SelectPersona | Sources/MenuBar/DigiNoiseMenuBarApp.swift:275-283 | the picker's binding saves the reloaded record with the new persona and refreshes |
| MenuBarApp.AppState.EnabledCategoriesCount | Sources/MenuBar/DigiNoiseMenuBarApp.swift:347-354 | the menu's count lies in 0-11, is 11 iff every category is on and 0 iff none is |
| MenuBarApp.Step | Sources/MenuBar/DigiNoiseMenuBarApp.swift:454-456 | a stepper press keeps its field in range (limit 1-50, hours 0-23), moves it by exactly one in the pressed direction when that stays in range, and changes no other field |
| MenuBarApp.StepKeepsRanges | Sources/MenuBar/DigiNoiseMenuBarApp.swift:454-456 | from an in-range record a press moves its field by at most one and keeps the record in range |
| MenuBarApp.MenuRangesNarrower | Sources/MenuBar/DigiNoiseMenuBarApp.swift:454 | the menu's ranges lie within the command line's; a CLI limit of 0 is outside the stepper's range |
| HexColor.TrimShape | Sources/MenuBar/DigiNoiseMenuBarApp.swift:8 | trimming keeps the infix between the leading and trailing non-alphanumerics; the result starts and ends alphanumeric unless empty |
| HexColor.TrimKeepsAlphanumericEnds | Sources/MenuBar/DigiNoiseMenuBarApp.swift:8 | a string with alphanumeric ends is not trimmed |
| HexColor.TrimDropsLeading | Sources/MenuBar/DigiNoiseMenuBarApp.swift:8 | a leading non-alphanumeric character is dropped |
| HexColor.TrimDropsTrailing | Sources/MenuBar/DigiNoiseMenuBarApp.swift:8 | a trailing non-alphanumeric character is dropped |
| HexColor.TrimKeepsInterior | Sources/MenuBar/DigiNoiseMenuBarApp.swift:8 | a `#` between alphanumerics is not removed |
| HexColor.HexPrefix | Sources/MenuBar/DigiNoiseMenuBarApp.swift:10 | the scanner reads the longest prefix of hex digits: all of a hex string, and it stops at the first non-digit |
| HexColor.ScanHex | Sources/MenuBar/DigiNoiseMenuBarApp.swift:10 | the scanned value is below 16 to the power of the string's length |
| HexColor.HexOf | Sources/MenuBar/DigiNoiseMenuBarApp.swift:10 | writing a value with `width` hex digits gives a hex string of that width whose value is the input |
| HexColor.ComponentsAreBytes | Sources/MenuBar/DigiNoiseMenuBarApp.swift:12-21 | every component is in 0-255 for every input string |
| HexColor.ScanHexOf | Sources/MenuBar/DigiNoiseMenuBarApp.swift:8-10 | a value written in hex is untouched by trimming and scans back to itself |
| HexColor.OtherLengthsAreBlack | Sources/MenuBar/DigiNoiseMenuBarApp.swift:19-20 | any trimmed length other than 3, 6 or 8 gives (255, 0, 0, 0) |
| HexColor.HashIgnored | Sources/MenuBar/DigiNoiseMenuBarApp.swift:8 | a leading `#` does not change the colour |
| HexColor.ThreeDigitNibbles | Sources/MenuBar/DigiNoiseMenuBarApp.swift:13-14 | three digits give alpha 255 and each nibble times 17 |
| HexColor.SixDigitRoundTrip | Sources/MenuBar/DigiNoiseMenuBarApp.swift:15-16 | six digits round-trip to (255, r, g, b), high byte first |
| HexColor.EightDigitRoundTrip | Sources/MenuBar/DigiNoiseMenuBarApp.swift:17-18 | eight digits round-trip to (a, r, g, b), alpha the top byte |

## Left out

- HTTP: `URLSession`, `URLRequest` and response parsing are replaced by the `Exchange` input. A response that is not an HTTP response counts as a failure, like a non-2xx status.
- Process control: `exit(0)` after scheduling and the `noiseGeneratorShouldExit` switch are not modelled. `ScheduleNextRun` returns the interval.
- launchd: `LaunchDManager`/`LaunchDHelper`, the plist text and the `launchctl` processes are not modelled. "Installed" is an input, and starting the service is the `startRequested` result of `ToggleRunning`.
- The `install`, `uninstall`, `run`, `daemon` and `persona list` commands are not modelled. They are launchd wiring or loops around the modelled tick, or printing.
- File I/O: JSON encoding and decoding, directory creation and failed writes are not modelled. The file is an `Option<Config>`, and a save always succeeds. `Logger` output is not modelled.
- One tick reads the clock once: the single `now` of `RunTick` stands for the separate `Date()` reads of Sources/Shared/Personas.swift:544,546 and Sources/Shared/NoiseGenerator.swift:106,115,147, which could only disagree across an hour or midnight boundary during the tick.
- Calendar semantics: time zones, DST and the exact behaviour of `Calendar.date(bySettingHour:...)` are not modelled. Every day has 86400 s, and a set time lands on the same day.
- `TimeInterval` is modelled in whole seconds. The random backoff is any integer in [3600, 21600].
- Int overflow: the daily counter and limits are unbounded integers. Real values stay far from 2^63.
- Randomness: only the range or set a choice is made from is modelled, not its distribution.
- Strings: lower-casing and `CharacterSet.alphanumerics` cover ASCII letters and digits only. `Character` counting is `char` counting, with no grapheme clusters.
- `HexColor.ScanHex`: the optional `0x` prefix that `Scanner` accepts is not modelled, and neither is its saturation on more than 16 digits. Those digit counts fall into the default case anyway.
- `HexColor.ColorFromHex`: the final conversion of the components to `Double` channels divided by 255 is floating point and is not modelled.
- `MenuBarApp.Step`: SwiftUI's stepper is modelled as clamping `value ± 1` into its range. What SwiftUI does with a value that starts outside the range is library behaviour that is not visible.
- `MenuBarApp.AppState.ToggleRunning`: it saves the cached record, which can be up to one refresh (5 s) old. A counter increment the daemon saved in between is overwritten. The contract states this outright, but the timer and the concurrency are not modelled.
- The SwiftUI views, timers, popovers and the Settings window's Save button are not modelled. Sources/MenuBar/main.swift, an older UI-only revision whose logic duplicates the modelled app, is not part of this model.
- The catalog's URLs and descriptions: an endpoint keeps its description and category only. Persona descriptions are not modelled.
- `LogReader.LogTail`: in the source, a negative `--lines` traps inside `suffix`. The model reports it as the `NegativeCount` error.
