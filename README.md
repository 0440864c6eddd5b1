# weather-cli: command resolution and configuration mutation, modelled in Dafny

This project models the core of `weather-cli`, a Go command-line tool for weather
forecasts. The core covers the argument tokens, the one command they resolve to,
and the in-memory configuration. The configuration holds the saved locations and
three preferences: temperature unit, forecast interval and API key. The core has
five parts:

- **Configuration** (`config.dfy`, module `Configuration`): the `Config` class
  and its in-place mutators. `ConfigData` is the document the configuration
  file holds; JSON encoding is treated as the identity. A `Store` stands in for
  the file at its fixed path. Its state is missing, holding a document,
  unreadable or malformed, and `writeFault` says whether writes to it fail.
  `LoadConfig`, `createDefaultConfig` and `SaveConfig` run against the store.
- **Location registry** (`location.dfy`, module `Locations`): `Manager` over a
  shared `Config`. It keeps names unique on add, requires the name to exist on
  remove, get and update, and saves after every successful change.
- **Argument resolver** (`parser.dfy`, module `Parser`): `ParseArgs` and its
  three handlers, as functions. Go's `flag` package and `strconv.ParseFloat`
  are function parameters. The flag precedence is also written separately, as
  an ordered rule list (`Precedence`), and proved to agree with `ParseArgs`.
- **Legacy option parser** (`options.dfy`, module `LegacyOptions`):
  `ParseOptions` and `validateOptions`. The module proves three ways in which
  they differ from `ParseArgs`.
- **Dispatcher and top level** (`commands.dfy`, `cli.dfy`): `ExecuteCommand` and
  its seven `execute*` handlers (`Help` needs no handler), then `CLI.Run`. Each
  is a method on the shared objects. They are proved equal to the functions
  `ExecuteEffect` and `RunEffect`, and the properties are lemmas about those
  functions. An `Effect` records four things: the error, the new configuration,
  the new file state, and the locations sent to the provider.

Helpers: `common.dfy` holds Go's `error` as `Outcome` and `(T, error)` as
`Result`. `strings.dfy` holds `strings.Join` (proved inverse to `Split`) and an
ASCII `strings.ToUpper`. `weather.dfy` holds the forecast provider, the seam
from `internal/cli/mock_test.go`: a `WeatherService` whose answers are a fixed
function and which logs every location it is asked about.

Messages are the Go literals. `fmt.Errorf("...: %w", err)` is the prefix joined
to the wrapped message (`Common.Wrap`).

Two consequences of the code that a reader might not expect:
- `ParseArgs` accepts any non-zero interval, negatives included
  (internal/cli/parser.go:70-72). Only the legacy `validateOptions` refuses
  negatives (internal/cli/options.go:72-74).
- Each setter saves after setting its field, so it can fail with the save's
  error while the in-memory field is already changed
  (internal/cli/commands.go:74-77, 84-87, 102-105). A failed add likewise
  leaves the change in memory but not in the file.

Three behaviours of the code that are worth knowing:
- The help flag is bound to `ParsedArgs.ShowHelp` whichever command wins, and
  `Run` checks it before dispatching. So `weather --help -i 1 2 X` shows help
  and adds nothing (`Cli.HelpFlagChangesNothing`).
- `ParseArgs` only produces the eight known tags (its `ensures`), so the
  dispatcher's unknown-command branch cannot be reached from `Run`.
- An interval of 0 reads as "no interval flag" and falls through to the later
  rules (`Parser.IntervalUnchecked`).

## Model

| member | source | states |
|---|---|---|
| `Common.Wrap` | internal/cli/commands.go:56 | wrapping keeps nil as nil and a failure as a failure, whose message is the prefix followed by the wrapped message |
| `Configuration.DefaultConfig` | internal/config/config.go:64-68 | the first-run configuration has unit "C", interval 24, no locations, empty API key |
| `Configuration.IndexOf` | internal/config/config.go:88-89 | the result names the first location with exactly that name, or none exists |
| `Configuration.RemovedFirstShape` | internal/config/config.go:87-92 | removal drops only the first match: one entry shorter, others in their order, same multiset minus that entry |
| `Configuration.RemovedFirstGone` | internal/config/config.go:87-95 | with unique names, the removed name is no longer present |
| `Configuration.RemovedFirstDistinct` | internal/config/config.go:87-92 | removal keeps names unique |
| `Configuration.AddRemoveRoundTrip` | internal/config/config_test.go:53-73 | adding then removing "New York" leaves an empty list; removing "London" from it finds nothing |
| `Configuration.RemoveAbsentKeepsTokyo` | internal/config/config.go:87-95 | removing an absent name from ["Tokyo"] finds nothing and keeps exactly ["Tokyo"] |
| `Configuration.Persist` | internal/config/config.go:50-61 | a save succeeds iff writes succeed; then the file holds the document, else it is unchanged and the error is "error writing config file: " + cause |
| `Configuration.Loaded` | internal/config/config.go:31-47 | only a missing file is ever changed by a load; a successful load leaves the file holding what it returned; a held document is returned as is; an unreadable or malformed file gives "error reading config file: " or "error unmarshaling config: " + cause; a missing file loads iff the defaults can be written |
| `Configuration.LoadBootstrapsDefaults` | internal/config/config.go:64-75 | loading a missing file returns the defaults and leaves them saved; if they cannot be written, it fails and the file stays missing |
| `Configuration.LoadAfterSave` | internal/config/config.go:36-46 | after a successful save, loading returns the saved document |
| `Configuration.Config.constructor` | internal/config/config.go:16-21 | a configuration literal holds exactly the given fields |
| `Configuration.Config.AddLocation` | internal/config/config.go:78-84 | appends (name, lat, lon) last with no duplicate check; earlier entries and other fields unchanged |
| `Configuration.Config.RemoveLocation` | internal/config/config.go:87-95 | splices out the first exact match and returns nil; an absent name gives "location not found" and no change |
| `Configuration.Config.SetTemperatureUnit` | internal/config/config.go:98-100 | the unit becomes exactly the argument; no other field changes |
| `Configuration.Config.SetForecastInterval` | internal/config/config.go:103-105 | the interval becomes exactly the argument; no other field changes |
| `Configuration.Config.SetAPIKey` | internal/config/config.go:108-110 | the API key becomes exactly the argument; no other field changes |
| `Configuration.Store.Save` | internal/config/config.go:50-61 | the outcome and the new file are those of `Persist` on the configuration's document |
| `Configuration.Store.CreateDefaultConfig` | internal/config/config.go:64-75 | returns a fresh default configuration after saving it, or the wrapped save error |
| `Configuration.Store.LoadConfig` | internal/config/config.go:31-47 | missing file: defaults created and saved; unreadable or malformed file: the wrapped error; otherwise a fresh configuration equal to the file |
| `Configuration.SaveThenLoad` | internal/config/config_test.go:25-51 | on a writable store, save then load returns a configuration equal to the one saved |
| `Locations.UpdatedShape` | internal/location/location.go:56-64 | an update keeps length, order and every name; only the first match gets the new coordinates; names stay unique |
| `Locations.AppendFresh` | internal/location/location.go:20-29 | appending a fresh name keeps names unique, and a lookup of that name finds the new last entry |
| `Locations.Manager.constructor` | internal/location/location.go:15-17 | the manager wraps exactly the given configuration |
| `Locations.Manager.AddLocation` | internal/location/location.go:20-29 | a taken name fails with no change and no save; a fresh one is appended last and the save's result returned; unique names stay unique either way |
| `Locations.Manager.RemoveLocation` | internal/location/location.go:32-38 | an absent name gives "location not found" with no change and no save; otherwise the first match is spliced out and the save's result returned |
| `Locations.Manager.GetLocation` | internal/location/location.go:41-48 | returns a copy of the first location with that name, and succeeds iff one exists; changes nothing |
| `Locations.Manager.ListLocations` | internal/location/location.go:51-53 | returns the saved locations unchanged, in insertion order |
| `Locations.Manager.UpdateLocation` | internal/location/location.go:56-65 | only the first match's coordinates change, in place; an absent name fails with no change and no save |
| `Locations.RemoveThenGet` | internal/location/location.go:32-48 | with unique names, a lookup after a successful remove of that name fails |
| `Weather.WeatherService.constructor` | internal/cli/mock_test.go:9-11 | the service answers with the given function and has been asked nothing yet |
| `Weather.WeatherService.GetWeatherForecast` | internal/cli/mock_test.go:14-16 | returns the answer for (configuration, location) and logs the location |
| `Strings.Upper` | internal/cli/parser.go:112 | same length, each character upper-cased (ASCII) |
| `Strings.UpperChar` | internal/cli/parser.go:112 | lower-case ASCII letters move to upper case, every other character is unchanged |
| `Strings.UpperIsLetter` | internal/cli/parser.go:112-113 | a string upper-cases to a single capital letter iff it is that letter in either case |
| `Strings.Join` | internal/cli/parser.go:129 | joining no parts gives the empty string, and a join begins with its first part |
| `Strings.SplitJoin` | internal/cli/parser.go:129 | splitting a join of space-free words on spaces gives back the words |
| `Strings.JoinSplit` | internal/cli/parser.go:129 | joining the pieces of a split with the separator gives back the string |
| `Parser.ParseArgs` | internal/cli/parser.go:38-86 | every successful result carries one of the eight known commands, and a successful set-unit carries "C" or "F" |
| `Parser.ParseArgsRecord` | internal/cli/parser.go:62-83 | a successful parse carries the help flag whichever command wins, and each command's whole record: add the parsed coordinates and third positional, remove the `-r` value, set-unit the upper-cased unit, set-interval the interval, set-api-key the key, get-weather the joined positionals, every other field zero |
| `Parser.HandleAddLocation` | internal/cli/parser.go:88-109 | succeeds iff there are 3 positionals and both coordinates parse, with name = third positional; on failure, count is checked before latitude, latitude before longitude |
| `Parser.HandleSetUnit` | internal/cli/parser.go:111-121 | succeeds iff the value is c, C, f or F; the stored unit is its upper-case form, always "C" or "F" |
| `Parser.HandleGetWeather` | internal/cli/parser.go:123-132 | no positionals is an error; otherwise the location is the positionals joined by single spaces |
| `Parser.FirstPresentIgnoresLater` | internal/cli/parser.go:62-83 | the first present flag in the order decides the command, whatever flags follow it |
| `Parser.FirstPresentNone` | internal/cli/parser.go:80-82 | with no selecting flag present, the command is get-weather |
| `Parser.ParseArgsFollowsPrecedence` | internal/cli/parser.go:62-83 | a successful parse has the command of the first present flag in the order add, remove, unit, interval, list, help, api-key, else get-weather |
| `Parser.NoArgumentsIsHelp` | internal/cli/parser.go:39-41 | fewer than two tokens gives Help with every other field zero and no error |
| `Parser.FlagErrorPassesThrough` | internal/cli/parser.go:56-59 | a flag-parse error is returned unchanged |
| `Parser.IntervalUnchecked` | internal/cli/parser.go:70-72 | any non-zero interval, negative included, gives set-interval with that value; zero never gives set-interval |
| `LegacyOptions.ValidateOptions` | internal/cli/options.go:67-77 | accepts iff the unit is empty, "C" or "F" (case-sensitive) and the interval is non-negative; a bad unit is reported before a bad interval |
| `LegacyOptions.ParseOptions` | internal/cli/options.go:23-57 | with the add flag, a count other than 3 is an error with no options, and a success carries both scanned coordinates and the third positional as name; without it, only the first positional becomes the location; filled options always come with validation's verdict, and carry the add, remove, unit, interval, list and help flag values unchanged; coordinates and name stay zero without the add flag, the location stays empty with it |
| `LegacyOptions.LatitudeScannedFirst` | internal/cli/options.go:43-47 | a bad latitude is reported as such, whatever the longitude |
| `LegacyOptions.InvalidOptionsStillReturned` | internal/cli/options.go:56 | a validation error still comes with non-nil options |
| `LegacyOptions.LowerCaseUnitDiffers` | internal/cli/options.go:68-70 | "c" or "f" is accepted (upper-cased) by ParseArgs and refused by ParseOptions |
| `LegacyOptions.NegativeIntervalDiffers` | internal/cli/options.go:72-74 | a negative interval is set as given by ParseArgs and refused by ParseOptions |
| `LegacyOptions.LocationWordsDiffer` | internal/cli/options.go:52-54 | with several positionals ParseArgs joins them all, ParseOptions keeps only the first, and the two differ |
| `Commands.ExecuteGetWeather` | internal/cli/commands.go:36-50 | an unknown location fails before the provider is asked; otherwise the provider is asked once and its error, wrapped, is the result |
| `Commands.ExecuteAddLocation` | internal/cli/commands.go:53-60 | the registry's add, with its error (duplicate or save) wrapped in "failed to add location: " |
| `Commands.ExecuteRemoveLocation` | internal/cli/commands.go:63-70 | the registry's remove, with its error (not found or save) wrapped in "failed to remove location: " |
| `Commands.ExecuteSetUnit` | internal/cli/commands.go:73-80 | sets the unit, then saves; only the save can fail |
| `Commands.ExecuteSetInterval` | internal/cli/commands.go:83-90 | sets the interval, then saves; only the save can fail |
| `Commands.ExecuteListLocations` | internal/cli/commands.go:93-98 | always returns nil |
| `Commands.ExecuteSetAPIKey` | internal/cli/commands.go:101-108 | sets the API key, then saves; only the save can fail |
| `Commands.ExecuteCommand` | internal/cli/commands.go:11-33 | its error, new configuration, new file and provider requests are those of `ExecuteEffect` |
| `Commands.UnknownCommandChangesNothing` | internal/cli/commands.go:30-31 | a tag outside the eight is "unknown command" and changes nothing |
| `Commands.GetWeatherOnlyReads` | internal/cli/commands.go:36-50 | get-weather never changes configuration or file; an unknown location asks the provider nothing; otherwise it succeeds iff the provider does |
| `Commands.SettersSetOneField` | internal/cli/commands.go:73-108 | each setter sets exactly its field to the argument even when the save fails; it fails iff the save does, and then the file is unchanged |
| `Commands.ListAndHelpChangeNothing` | internal/cli/commands.go:23-27 | list and help always return nil and change nothing |
| `Commands.AddDelegatesToRegistry` | internal/cli/commands.go:53-60 | a taken name is reported and changes nothing; a fresh one is appended last and found by a lookup |
| `Commands.RemoveDelegatesToRegistry` | internal/cli/commands.go:63-70 | an absent name is reported and changes nothing; with unique names, the removed name is gone |
| `Commands.ExecuteKeepsInvariant` | internal/cli/commands.go:11-33 | every dispatch keeps names unique; the file is either unchanged or holds the new configuration, and a successful change is always saved |
| `Cli.CLI.constructor` | internal/cli/cli.go:17-22 | the CLI holds the given configuration |
| `Cli.CLI.Run` | internal/cli/cli.go:25-45 | its error, new configuration, new file and provider requests are those of `RunEffect` |
| `Cli.ParseErrorChangesNothing` | internal/cli/cli.go:27-30 | a parse error is returned wrapped, with nothing dispatched or changed |
| `Cli.HelpFlagChangesNothing` | internal/cli/cli.go:33-36 | once the help flag is set, a successful parse returns nil and changes nothing, whatever command came with it |
| `Cli.RunFailsIffDispatchFails` | internal/cli/cli.go:39-44 | past parsing and help, Run fails exactly when the dispatch fails, with the same changes |
| `Cli.BareProgramShowsHelp` | internal/cli/parser.go:39-41 | `["weather"]` alone returns nil and changes nothing |
| `Cli.RunKeepsNamesDistinct` | internal/cli/cli.go:25-45 | every run keeps location names unique |
| `Cli.RemoveTokyo` | internal/cli/cli_test.go:59-73 | `weather -r Tokyo` with Tokyo saved and names unique removes exactly that entry, leaves no Tokyo, and saves when writes succeed |
| `Cli.AddTokyo` | internal/cli/cli_test.go:48-58 | `weather -i 35.6895 139.6917 Tokyo` without Tokyo saved appends it last with those coordinates, and saves when writes succeed |
| `Cli.MultiWordLocation` | internal/cli/parser.go:123-131 | `weather New York` asks the provider about the saved "New York" and changes nothing |

## Left out

- HTTP fetch, JSON decoding and timeouts of the forecast provider (internal/weather/api.go): the provider is a `WeatherService` whose answers are fixed by a function. The global `DefaultWeatherService` becomes a parameter.
- Display (internal/weather/display.go, `DisplayHelp`, `DisplayLocationList`, the success messages printed by the handlers): output only, so it has no effect in the model.
- Temperature conversion (internal/weather/convert.go) and ASCII art (internal/weather/ascii.go): not used by the core's decisions.
- File system and JSON (`os.Stat`, `ReadFile`, `WriteFile`, `MarshalIndent`, `Unmarshal`, `GetConfigDir`, `init`): replaced by the `Store` state. Its failures are kept as outcomes: unreadable, malformed, and writes failing with a cause.
- `Configuration.Persist`: does not model `json.MarshalIndent` failing on NaN or infinite coordinates, because coordinates are exact reals here.
- `Configuration.Persist`: a failed save leaves the file as it was. `os.WriteFile` truncates the file before writing, so a failure during the write itself can leave a partial file that the next load reports as malformed; `Commands.SettersSetOneField` and the file clause of `Commands.ExecuteKeepsInvariant` rest on this simplification.
- Go's `flag` package: how tokens become flag values, including stopping at the first non-flag and the error text, is the `FlagParser` / `OptionFlagParser` parameter. For `ParseOptions` the flag set exits the process on a parse error, so that parser gets flag values only.
- `strconv.ParseFloat` and `fmt.Sscanf("%f")` are the `FloatParser` and `FloatScanner` parameters. Their accepted syntax and float64 rounding are not modelled.
- `Strings.Upper`: ASCII letters only, where Go's `strings.ToUpper` is Unicode. No non-ASCII string upper-cases to "C" or "F", so the unit check is the same.
- Interval width: Go's `int` is 64-bit. The model uses unbounded `int`, since the value is only stored; range checking is part of the flag parser.
- Process plumbing: `RunWithErrorHandling`, `main`, `os.Exit` and stderr. The `loadConfig` field of `CLI` is left out with them, since only `RunWithErrorHandling` calls it (internal/cli/cli.go:53).
- `usage` in internal/cli/options.go: prints text only.
- Concurrency and cross-process access to the file: the tool runs a single sequential invocation.
