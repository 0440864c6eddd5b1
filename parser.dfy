/** The argument resolver of internal/cli/parser.go: from the argument tokens
    (program name first) to one `ParsedArgs` record or an error. Go's `flag`
    package and `strconv.ParseFloat` are parameters of the resolver. */
module Parser {
  import opened Common
  import opened Strings

  /** `type Command int`, so that a tag outside the eight named ones exists. */
  newtype Command = int

  const CommandGetWeather: Command := 0
  const CommandAddLocation: Command := 1
  const CommandRemoveLocation: Command := 2
  const CommandSetUnit: Command := 3
  const CommandSetInterval: Command := 4
  const CommandListLocations: Command := 5
  const CommandHelp: Command := 6
  const CommandSetAPIKey: Command := 7

  predicate IsKnown(c: Command)
  {
    0 <= c <= 7
  }

  datatype ParsedArgs = ParsedArgs(
    command: Command,
    location: string,
    latitude: real,
    longitude: real,
    name: string,
    unit: string,
    interval: int,
    showHelp: bool,
    apiKey: string)

  /** `ParsedArgs{}`: every field at its zero value. */
  const Zero: ParsedArgs := ParsedArgs(0, "", 0.0, 0.0, "", "", 0, false, "")

  /** What the flag set of `ParseArgs` leaves behind after a successful parse:
      the value of each flag and the positional arguments after the flags. */
  datatype FlagValues = FlagValues(
    help: bool,
    add: bool,
    remove: string,
    unit: string,
    interval: int,
    list: bool,
    apiKey: string,
    positionals: seq<string>)

  /** `flagSet.Parse`: an error (unknown flag, missing or ill-formed value) or the flag values. */
  type FlagParser = seq<string> -> Result<FlagValues>

  /** `strconv.ParseFloat(s, 64)`: a number, or None when `s` is not one. */
  type FloatParser = string -> Option<real>

  const ErrAddUsage: string := "invalid arguments for adding location. Use: -i <latitude> <longitude> <name>"
  const ErrLatitude: string := "invalid latitude"
  const ErrLongitude: string := "invalid longitude"
  const ErrUnit: string := "invalid temperature unit. Use C or F"
  const ErrLocationRequired: string := "location is required for getting weather"

  /** `ParseArgs(args)`. */
  function ParseArgs(args: seq<string>, parseFlags: FlagParser, parseFloat: FloatParser): (r: Result<ParsedArgs>)
    ensures r.Ok? ==> IsKnown(r.value.command)
    ensures r.Ok? && r.value.command == CommandSetUnit ==> r.value.unit == "C" || r.value.unit == "F"
  {
    if |args| < 2 then Ok(Zero.(command := CommandHelp))
    else match parseFlags(args[1..])
      case Err(e) => Err(e)
      case Ok(f) =>
        var parsed := Zero.(showHelp := f.help);
        if f.add then HandleAddLocation(parsed, f.positionals, parseFloat)
        else if f.remove != "" then Ok(parsed.(command := CommandRemoveLocation, name := f.remove))
        else if f.unit != "" then HandleSetUnit(parsed, f.unit)
        else if f.interval != 0 then Ok(parsed.(command := CommandSetInterval, interval := f.interval))
        else if f.list then Ok(parsed.(command := CommandListLocations))
        else if parsed.showHelp then Ok(parsed.(command := CommandHelp))
        else if f.apiKey != "" then Ok(parsed.(command := CommandSetAPIKey, apiKey := f.apiKey))
        else HandleGetWeather(parsed, f.positionals)
  }

  /** `handleAddLocation`: three positionals, latitude, longitude and name. */
  function HandleAddLocation(parsed: ParsedArgs, args: seq<string>, parseFloat: FloatParser): (r: Result<ParsedArgs>)
    ensures r.Ok? <==> |args| == 3 && parseFloat(args[0]).Some? && parseFloat(args[1]).Some?
    ensures r.Ok? ==> r.value == parsed.(command := CommandAddLocation,
      latitude := parseFloat(args[0]).value, longitude := parseFloat(args[1]).value, name := args[2])
    ensures |args| != 3 ==> r == Err(ErrAddUsage)
    ensures |args| == 3 && parseFloat(args[0]).None? ==> r == Err(ErrLatitude)
    ensures |args| == 3 && parseFloat(args[0]).Some? && parseFloat(args[1]).None? ==> r == Err(ErrLongitude)
  {
    if |args| != 3 then Err(ErrAddUsage)
    else match parseFloat(args[0])
      case None => Err(ErrLatitude)
      case Some(lat) =>
        match parseFloat(args[1])
        case None => Err(ErrLongitude)
        case Some(lon) =>
          Ok(parsed.(command := CommandAddLocation, latitude := lat, longitude := lon, name := args[2]))
  }

  /** `handleSetUnit`: the value, upper-cased, must be C or F. */
  function HandleSetUnit(parsed: ParsedArgs, unit: string): (r: Result<ParsedArgs>)
    ensures r.Ok? <==> unit in {"C", "c", "F", "f"}
    ensures r.Ok? ==> r.value == parsed.(command := CommandSetUnit, unit := Upper(unit))
    ensures r.Ok? ==> r.value.unit == "C" || r.value.unit == "F"
    ensures r.Err? ==> r.msg == ErrUnit
  {
    UpperIsLetter(unit, 'c', 'C');
    UpperIsLetter(unit, 'f', 'F');
    var u := Upper(unit);
    if u != "C" && u != "F" then Err(ErrUnit)
    else Ok(parsed.(command := CommandSetUnit, unit := u))
  }

  /** `handleGetWeather`: the positionals, joined with single spaces, name the location. */
  function HandleGetWeather(parsed: ParsedArgs, args: seq<string>): (r: Result<ParsedArgs>)
    ensures r.Ok? <==> |args| > 0
    ensures r.Err? ==> r.msg == ErrLocationRequired
    ensures r.Ok? ==> r.value == parsed.(command := CommandGetWeather, location := Join(args, " "))
  {
    if |args| == 0 then Err(ErrLocationRequired)
    else Ok(parsed.(command := CommandGetWeather, location := Join(args, " ")))
  }

  /** A command-selecting flag: when it is present, and the command it selects. */
  datatype Rule = Rule(present: FlagValues -> bool, command: Command)

  /** The command-selecting flags, in the order the resolver consults them. */
  const Precedence: seq<Rule> := [
    Rule((f: FlagValues) => f.add, CommandAddLocation),
    Rule((f: FlagValues) => f.remove != "", CommandRemoveLocation),
    Rule((f: FlagValues) => f.unit != "", CommandSetUnit),
    Rule((f: FlagValues) => f.interval != 0, CommandSetInterval),
    Rule((f: FlagValues) => f.list, CommandListLocations),
    Rule((f: FlagValues) => f.help, CommandHelp),
    Rule((f: FlagValues) => f.apiKey != "", CommandSetAPIKey)
  ]

  /** The command of the first rule whose flag is present; get-weather when none is. */
  function FirstPresent(rules: seq<Rule>, f: FlagValues): (c: Command)
  {
    if |rules| == 0 then CommandGetWeather
    else if rules[0].present(f) then rules[0].command
    else FirstPresent(rules[1..], f)
  }

  /** The first present flag decides, whatever flags come after it in the order. */
  lemma {:induction false} FirstPresentIgnoresLater(rules: seq<Rule>, f: FlagValues, k: nat)
    requires k < |rules| && rules[k].present(f)
    requires forall j :: 0 <= j < k ==> !rules[j].present(f)
    ensures FirstPresent(rules, f) == rules[k].command
  {
    if k > 0 {
      FirstPresentIgnoresLater(rules[1..], f, k - 1);
    }
  }

  /** With no selecting flag present, the default command is chosen. */
  lemma {:induction false} FirstPresentNone(rules: seq<Rule>, f: FlagValues)
    requires forall j :: 0 <= j < |rules| ==> !rules[j].present(f)
    ensures FirstPresent(rules, f) == CommandGetWeather
  {
    if |rules| > 0 {
      FirstPresentNone(rules[1..], f);
    }
  }

  /** A successful parse selects the command of the first present flag in the precedence order. */
  lemma ParseArgsFollowsPrecedence(args: seq<string>, parseFlags: FlagParser, parseFloat: FloatParser)
    requires |args| >= 2 && parseFlags(args[1..]).Ok?
    requires ParseArgs(args, parseFlags, parseFloat).Ok?
    ensures ParseArgs(args, parseFlags, parseFloat).value.command == FirstPresent(Precedence, parseFlags(args[1..]).value)
  {
    var f := parseFlags(args[1..]).value;
    var c := ParseArgs(args, parseFlags, parseFloat).value.command;
    var p := Precedence;
    if f.add { FirstPresentIgnoresLater(p, f, 0); }
    else if f.remove != "" { FirstPresentIgnoresLater(p, f, 1); }
    else if f.unit != "" { FirstPresentIgnoresLater(p, f, 2); }
    else if f.interval != 0 { FirstPresentIgnoresLater(p, f, 3); }
    else if f.list { FirstPresentIgnoresLater(p, f, 4); }
    else if f.help { FirstPresentIgnoresLater(p, f, 5); }
    else if f.apiKey != "" { FirstPresentIgnoresLater(p, f, 6); }
    else { FirstPresentNone(p, f); }
  }

  /** What each command's record carries: the flag that selected it (or the
      handler's parse of the positionals), the help flag, and zero elsewhere. */
  lemma ParseArgsRecord(args: seq<string>, parseFlags: FlagParser, parseFloat: FloatParser)
    requires |args| >= 2 && parseFlags(args[1..]).Ok?
    requires ParseArgs(args, parseFlags, parseFloat).Ok?
    ensures var f := parseFlags(args[1..]).value;
      var ps := f.positionals;
      var p := ParseArgs(args, parseFlags, parseFloat).value;
      && p.showHelp == f.help
      && (p.command == CommandAddLocation ==>
            |ps| == 3 &&
            p == ParsedArgs(CommandAddLocation, "", parseFloat(ps[0]).value, parseFloat(ps[1]).value,
                            ps[2], "", 0, f.help, ""))
      && (p.command == CommandRemoveLocation ==>
            p == ParsedArgs(CommandRemoveLocation, "", 0.0, 0.0, f.remove, "", 0, f.help, ""))
      && (p.command == CommandSetUnit ==>
            p == ParsedArgs(CommandSetUnit, "", 0.0, 0.0, "", Upper(f.unit), 0, f.help, ""))
      && (p.command == CommandSetInterval ==>
            p == ParsedArgs(CommandSetInterval, "", 0.0, 0.0, "", "", f.interval, f.help, ""))
      && (p.command == CommandListLocations ==>
            p == ParsedArgs(CommandListLocations, "", 0.0, 0.0, "", "", 0, f.help, ""))
      && (p.command == CommandHelp ==> p == ParsedArgs(CommandHelp, "", 0.0, 0.0, "", "", 0, true, ""))
      && (p.command == CommandSetAPIKey ==>
            p == ParsedArgs(CommandSetAPIKey, "", 0.0, 0.0, "", "", 0, f.help, f.apiKey))
      && (p.command == CommandGetWeather ==>
            |ps| > 0 &&
            p == ParsedArgs(CommandGetWeather, Join(ps, " "), 0.0, 0.0, "", "", 0, f.help, ""))
  {
  }

  /** The program name alone (or nothing) is help, every other field at its zero value. */
  lemma NoArgumentsIsHelp(args: seq<string>, parseFlags: FlagParser, parseFloat: FloatParser)
    requires |args| < 2
    ensures ParseArgs(args, parseFlags, parseFloat) ==
      Ok(ParsedArgs(CommandHelp, "", 0.0, 0.0, "", "", 0, false, ""))
  {
  }

  /** A flag-parse failure is returned unchanged. */
  lemma FlagErrorPassesThrough(args: seq<string>, parseFlags: FlagParser, parseFloat: FloatParser)
    requires |args| >= 2 && parseFlags(args[1..]).Err?
    ensures ParseArgs(args, parseFlags, parseFloat) == Err(parseFlags(args[1..]).msg)
  {
  }

  /** Any non-zero interval, negative included, is taken as given; zero reads as "no interval flag". */
  lemma IntervalUnchecked(args: seq<string>, parseFlags: FlagParser, parseFloat: FloatParser)
    requires |args| >= 2 && parseFlags(args[1..]).Ok?
    requires var f := parseFlags(args[1..]).value; !f.add && f.remove == "" && f.unit == ""
    ensures var f := parseFlags(args[1..]).value;
      f.interval != 0 ==> (ParseArgs(args, parseFlags, parseFloat) ==
        Ok(Zero.(command := CommandSetInterval, interval := f.interval, showHelp := f.help)))
    ensures var f := parseFlags(args[1..]).value; var r := ParseArgs(args, parseFlags, parseFloat);
      f.interval == 0 && r.Ok? ==> r.value.command != CommandSetInterval
  {
  }
}
