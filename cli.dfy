/** The top level of internal/cli/cli.go: `Run` resolves the arguments, stops
    early for a parse error or for the help flag, and otherwise dispatches. */
module Cli {
  import opened Common
  import opened Configuration
  import opened Weather
  import opened Parser
  import opened Commands
  import Strings

  const ErrParsing: string := "error parsing arguments: "
  const ErrExecuting: string := "error executing command: "

  /** The effect of `Run(args)` on a configuration holding `doc` and a file in state `file`. */
  function RunEffect(args: seq<string>, parseFlags: FlagParser, parseFloat: FloatParser,
                     doc: ConfigData, file: FileState, fault: Option<string>, respond: Responder): (e: Effect)
  {
    match ParseArgs(args, parseFlags, parseFloat)
    case Err(e) => Effect(Fail(ErrParsing + e), doc, file, [])
    case Ok(parsed) =>
      if parsed.showHelp then Effect(Pass, doc, file, [])
      else
        var e := ExecuteEffect(parsed, doc, file, fault, respond);
        e.(out := Wrap(ErrExecuting, e.out))
  }

  class CLI {
    var cfg: Config
    /** The configuration file the dispatcher saves to. */
    const store: Store

    /** `NewCLI`. */
    constructor (cfg: Config, store: Store)
      ensures this.cfg == cfg && this.store == store
    {
      this.cfg := cfg;
      this.store := store;
    }

    /** `Run(args)`. */
    method Run(args: seq<string>, parseFlags: FlagParser, parseFloat: FloatParser, service: WeatherService)
      returns (err: Outcome)
      modifies cfg, store, service
      ensures var e := RunEffect(args, parseFlags, parseFloat, old(cfg.Value()), old(store.file),
                                 store.writeFault, service.respond);
        && err == e.out && cfg.Value() == e.config && store.file == e.file
        && service.requests == old(service.requests) + e.fetched
    {
      var parsed := ParseArgs(args, parseFlags, parseFloat);
      if parsed.Err? {
        return Fail(ErrParsing + parsed.msg);
      }
      if parsed.value.showHelp {
        return Pass;
      }
      err := ExecuteCommand(parsed.value, cfg, store, service);
      err := Wrap(ErrExecuting, err);
    }
  }

  /** A parse error is reported without dispatching: nothing changes. */
  lemma ParseErrorChangesNothing(args: seq<string>, parseFlags: FlagParser, parseFloat: FloatParser,
                                 doc: ConfigData, file: FileState, fault: Option<string>, respond: Responder)
    requires ParseArgs(args, parseFlags, parseFloat).Err?
    ensures RunEffect(args, parseFlags, parseFloat, doc, file, fault, respond) ==
      Effect(Fail(ErrParsing + ParseArgs(args, parseFlags, parseFloat).msg), doc, file, [])
  {
  }

  /** The help flag wins over every other flag: whatever command it came with,
      a successful parse with help set succeeds and changes nothing. */
  lemma HelpFlagChangesNothing(args: seq<string>, parseFlags: FlagParser, parseFloat: FloatParser,
                               doc: ConfigData, file: FileState, fault: Option<string>, respond: Responder)
    requires |args| >= 2 && parseFlags(args[1..]).Ok? && parseFlags(args[1..]).value.help
    requires ParseArgs(args, parseFlags, parseFloat).Ok?
    ensures RunEffect(args, parseFlags, parseFloat, doc, file, fault, respond) == Effect(Pass, doc, file, [])
  {
  }

  /** Past parsing and help, `Run` fails exactly when the dispatch does, with the same effect. */
  lemma RunFailsIffDispatchFails(args: seq<string>, parseFlags: FlagParser, parseFloat: FloatParser,
                                 doc: ConfigData, file: FileState, fault: Option<string>, respond: Responder)
    requires ParseArgs(args, parseFlags, parseFloat).Ok?
    requires !ParseArgs(args, parseFlags, parseFloat).value.showHelp
    ensures var r := RunEffect(args, parseFlags, parseFloat, doc, file, fault, respond);
      var e := ExecuteEffect(ParseArgs(args, parseFlags, parseFloat).value, doc, file, fault, respond);
      && (r.out.Fail? <==> e.out.Fail?)
      && r.config == e.config && r.file == e.file && r.fetched == e.fetched
  {
  }

  /** The program name alone shows help, succeeds and changes nothing. */
  lemma BareProgramShowsHelp(parseFlags: FlagParser, parseFloat: FloatParser,
                             doc: ConfigData, file: FileState, fault: Option<string>, respond: Responder)
    ensures RunEffect(["weather"], parseFlags, parseFloat, doc, file, fault, respond) == Effect(Pass, doc, file, [])
  {
  }

  /** Every run keeps location names unique. */
  lemma RunKeepsNamesDistinct(args: seq<string>, parseFlags: FlagParser, parseFloat: FloatParser,
                              doc: ConfigData, file: FileState, fault: Option<string>, respond: Responder)
    requires DistinctNames(doc.locations)
    ensures DistinctNames(RunEffect(args, parseFlags, parseFloat, doc, file, fault, respond).config.locations)
  {
  }

  /** `weather -i 35.6895 139.6917 Tokyo` on a configuration without Tokyo appends it last. */
  lemma AddTokyo(parseFlags: FlagParser, parseFloat: FloatParser,
                 doc: ConfigData, file: FileState, fault: Option<string>, respond: Responder)
    requires parseFlags(["-i", "35.6895", "139.6917", "Tokyo"]) ==
      Ok(FlagValues(false, true, "", "", 0, false, "", ["35.6895", "139.6917", "Tokyo"]))
    requires parseFloat("35.6895") == Some(35.6895) && parseFloat("139.6917") == Some(139.6917)
    requires !HasName(doc.locations, "Tokyo")
    ensures var e := RunEffect(["weather", "-i", "35.6895", "139.6917", "Tokyo"], parseFlags, parseFloat,
                               doc, file, fault, respond);
      && e.config == doc.(locations := doc.locations + [Location("Tokyo", 35.6895, 139.6917)])
      && e.fetched == []
      && (fault.None? ==> e.out == Pass && e.file == Holds(e.config))
  {
  }

  /** `weather -r Tokyo` with Tokyo saved removes it and saves the rest. */
  lemma RemoveTokyo(parseFlags: FlagParser, parseFloat: FloatParser,
                    doc: ConfigData, file: FileState, fault: Option<string>, respond: Responder)
    requires parseFlags(["-r", "Tokyo"]) == Ok(FlagValues(false, false, "Tokyo", "", 0, false, "", []))
    requires HasName(doc.locations, "Tokyo") && DistinctNames(doc.locations)
    ensures var e := RunEffect(["weather", "-r", "Tokyo"], parseFlags, parseFloat, doc, file, fault, respond);
      && e.config == doc.(locations := RemovedFirst(doc.locations, "Tokyo"))
      && !HasName(e.config.locations, "Tokyo")
      && |e.config.locations| == |doc.locations| - 1
      && e.fetched == []
      && (fault.None? ==> e.out == Pass && e.file == Holds(e.config))
  {
  }

  /** `weather New York` looks up the saved location "New York": the positionals are joined. */
  lemma MultiWordLocation(parseFlags: FlagParser, parseFloat: FloatParser,
                          doc: ConfigData, file: FileState, fault: Option<string>, respond: Responder)
    requires parseFlags(["New", "York"]) == Ok(FlagValues(false, false, "", "", 0, false, "", ["New", "York"]))
    requires HasName(doc.locations, "New York")
    ensures var e := RunEffect(["weather", "New", "York"], parseFlags, parseFloat, doc, file, fault, respond);
      && e.fetched == [doc.locations[IndexOf(doc.locations, "New York").value]]
      && e.config == doc && e.file == file
  {
  }
}
