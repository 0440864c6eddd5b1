/** The older option parser of internal/cli/options.go. It reads the same
    kind of command line as `ParseArgs` but decides differently: units are
    matched case-sensitively, a negative interval is refused, and only the
    first positional names the location. */
module LegacyOptions {
  import opened Common
  import Strings
  import Parser

  datatype Options = Options(
    location: string,
    addLocation: bool,
    latitude: real,
    longitude: real,
    name: string,
    removeName: string,
    unit: string,
    interval: int,
    list: bool,
    help: bool)

  /** What `flag.Parse` leaves behind: the fields bound to flags, and the positionals. */
  datatype OptionFlags = OptionFlags(
    addLocation: bool,
    removeName: string,
    unit: string,
    interval: int,
    list: bool,
    help: bool,
    positionals: seq<string>)

  /** `flag.Parse` on the process's flag set; a parse error ends the process there. */
  type OptionFlagParser = seq<string> -> OptionFlags

  /** `fmt.Sscanf(s, "%f", &v)`: a number, or the scanner's error. */
  type FloatScanner = string -> Result<real>

  /** The `(*Options, error)` pair, in which both halves may be set at once. */
  datatype ParsedOptions = ParsedOptions(opts: Option<Options>, err: Outcome)

  const ErrAddUsage: string := "invalid arguments for adding location. Use: -i <latitude> <longitude> <name>"
  const ErrLatitude: string := "invalid latitude: "
  const ErrLongitude: string := "invalid longitude: "
  const ErrUnit: string := "invalid temperature unit. Use C or F"
  const ErrInterval: string := "invalid forecast interval. Must be a positive number"

  /** `validateOptions`: the unit is checked first, exactly; then the sign of the interval. */
  function ValidateOptions(o: Options): (err: Outcome)
    ensures err.Pass? <==> (o.unit == "" || o.unit == "C" || o.unit == "F") && o.interval >= 0
    ensures o.unit != "" && o.unit != "C" && o.unit != "F" ==> err == Fail(ErrUnit)
    ensures err.Fail? && err != Fail(ErrUnit) ==> err == Fail(ErrInterval) && o.interval < 0
  {
    if o.unit != "" && o.unit != "C" && o.unit != "F" then Fail(ErrUnit)
    else if o.interval < 0 then Fail(ErrInterval)
    else Pass
  }

  /** `ParseOptions`, on the tokens after the program name. */
  function ParseOptions(argv: seq<string>, parseFlags: OptionFlagParser, scan: FloatScanner): (r: ParsedOptions)
    ensures r.opts.None? ==> r.err.Fail?
    ensures r.opts.Some? ==> r.err == ValidateOptions(r.opts.value)
    ensures var f := parseFlags(argv);
      f.addLocation && |f.positionals| != 3 ==> r == ParsedOptions(None, Fail(ErrAddUsage))
    ensures var f := parseFlags(argv);
      r.opts.Some? && f.addLocation ==> (
        && |f.positionals| == 3 && r.opts.value.name == f.positionals[2]
        && Ok(r.opts.value.latitude) == scan(f.positionals[0])
        && Ok(r.opts.value.longitude) == scan(f.positionals[1]))
    ensures var f := parseFlags(argv);
      !f.addLocation ==> (r.opts.Some? &&
        r.opts.value.location == (if |f.positionals| > 0 then f.positionals[0] else ""))
    ensures var f := parseFlags(argv);
      r.opts.Some? ==> (
        && r.opts.value.addLocation == f.addLocation && r.opts.value.removeName == f.removeName
        && r.opts.value.unit == f.unit && r.opts.value.interval == f.interval
        && r.opts.value.list == f.list && r.opts.value.help == f.help)
    ensures var f := parseFlags(argv);
      r.opts.Some? ==> (
        if f.addLocation then r.opts.value.location == ""
        else r.opts.value.latitude == 0.0 && r.opts.value.longitude == 0.0 && r.opts.value.name == "")
  {
    var f := parseFlags(argv);
    var opts := Options("", f.addLocation, 0.0, 0.0, "", f.removeName, f.unit, f.interval, f.list, f.help);
    if f.addLocation then
      var args := f.positionals;
      if |args| != 3 then ParsedOptions(None, Fail(ErrAddUsage))
      else match scan(args[0])
        case Err(e) => ParsedOptions(None, Fail(ErrLatitude + e))
        case Ok(lat) =>
          match scan(args[1])
          case Err(e) => ParsedOptions(None, Fail(ErrLongitude + e))
          case Ok(lon) =>
            var filled := opts.(latitude := lat, longitude := lon, name := args[2]);
            ParsedOptions(Some(filled), ValidateOptions(filled))
    else
      var filled := if |f.positionals| > 0 then opts.(location := f.positionals[0]) else opts;
      ParsedOptions(Some(filled), ValidateOptions(filled))
  }

  /** With the add flag, latitude is scanned before longitude: a bad latitude is reported even when both are bad. */
  lemma LatitudeScannedFirst(argv: seq<string>, parseFlags: OptionFlagParser, scan: FloatScanner)
    requires parseFlags(argv).addLocation && |parseFlags(argv).positionals| == 3
    requires scan(parseFlags(argv).positionals[0]).Err?
    ensures ParseOptions(argv, parseFlags, scan) ==
      ParsedOptions(None, Fail(ErrLatitude + scan(parseFlags(argv).positionals[0]).msg))
  {
  }

  /** A validation failure still comes with the filled options. */
  lemma InvalidOptionsStillReturned(argv: seq<string>, parseFlags: OptionFlagParser, scan: FloatScanner)
    requires !parseFlags(argv).addLocation && parseFlags(argv).interval < 0
    ensures ParseOptions(argv, parseFlags, scan).opts.Some?
    ensures ParseOptions(argv, parseFlags, scan).err.Fail?
  {
  }

  /** Options fields as bound by flags, for the comparisons below. */
  predicate SameFlags(f: Parser.FlagValues, o: OptionFlags)
  {
    && f.add == o.addLocation && f.remove == o.removeName && f.unit == o.unit
    && f.interval == o.interval && f.list == o.list && f.help == o.help
    && f.positionals == o.positionals
  }

  /** A lower-case unit: the resolver upper-cases and accepts it, this parser refuses it. */
  lemma LowerCaseUnitDiffers(args: seq<string>, parseFlags: Parser.FlagParser, parseFloat: Parser.FloatParser,
                             optionFlags: OptionFlagParser, scan: FloatScanner, lower: char)
    requires lower == 'c' || lower == 'f'
    requires |args| >= 2 && parseFlags(args[1..]).Ok?
    requires var f := parseFlags(args[1..]).value; !f.add && f.remove == "" && f.unit == [lower]
    requires SameFlags(parseFlags(args[1..]).value, optionFlags(args[1..]))
    ensures Parser.ParseArgs(args, parseFlags, parseFloat).Ok?
    ensures Parser.ParseArgs(args, parseFlags, parseFloat).value.unit == Strings.Upper([lower])
    ensures ParseOptions(args[1..], optionFlags, scan).err == Fail(ErrUnit)
  {
  }

  /** A negative interval: the resolver takes it as given, this parser refuses it. */
  lemma NegativeIntervalDiffers(args: seq<string>, parseFlags: Parser.FlagParser, parseFloat: Parser.FloatParser,
                                optionFlags: OptionFlagParser, scan: FloatScanner)
    requires |args| >= 2 && parseFlags(args[1..]).Ok?
    requires var f := parseFlags(args[1..]).value; !f.add && f.remove == "" && f.unit == "" && f.interval < 0
    requires SameFlags(parseFlags(args[1..]).value, optionFlags(args[1..]))
    ensures var r := Parser.ParseArgs(args, parseFlags, parseFloat);
      r.Ok? && r.value.command == Parser.CommandSetInterval && r.value.interval == parseFlags(args[1..]).value.interval
    ensures ParseOptions(args[1..], optionFlags, scan).err == Fail(ErrInterval)
  {
  }

  /** Several positionals and no flag: the resolver joins them all, this parser keeps the first. */
  lemma LocationWordsDiffer(args: seq<string>, parseFlags: Parser.FlagParser, parseFloat: Parser.FloatParser,
                            optionFlags: OptionFlagParser, scan: FloatScanner)
    requires |args| >= 2 && parseFlags(args[1..]).Ok?
    requires parseFlags(args[1..]).value == Parser.FlagValues(false, false, "", "", 0, false, "", parseFlags(args[1..]).value.positionals)
    requires |parseFlags(args[1..]).value.positionals| >= 2
    requires SameFlags(parseFlags(args[1..]).value, optionFlags(args[1..]))
    ensures var ps := parseFlags(args[1..]).value.positionals;
      && Parser.ParseArgs(args, parseFlags, parseFloat).Ok?
      && Parser.ParseArgs(args, parseFlags, parseFloat).value.location == Strings.Join(ps, " ")
      && ParseOptions(args[1..], optionFlags, scan).opts.value.location == ps[0]
      && Strings.Join(ps, " ") != ps[0]
  {
  }
}
