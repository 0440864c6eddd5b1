/** The dispatcher of internal/cli/commands.go: each command tag goes to a
    registry operation, a setter followed by a save, a read, or the forecast
    provider. Display is left out, so it has no effect here. */
module Commands {
  import opened Common
  import opened Configuration
  import opened Locations
  import opened Weather
  import opened Parser

  /** What one dispatch does: its error, the configuration and the file after
      it, and the locations it asked the provider about. */
  datatype Effect = Effect(out: Outcome, config: ConfigData, file: FileState, fetched: seq<Location>)

  type Responder = (ConfigData, Location) -> Result<WeatherData>

  const ErrGetLocation: string := "failed to get location: "
  const ErrFetch: string := "failed to fetch weather data: "
  const ErrAdd: string := "failed to add location: "
  const ErrRemove: string := "failed to remove location: "
  const ErrSave: string := "failed to save configuration: "
  const ErrUnknown: string := "unknown command"

  /** A changed configuration followed by a save whose error is wrapped in `prefix`. */
  function Saved(prefix: string, doc: ConfigData, file: FileState, fault: Option<string>): (e: Effect)
  {
    var (out, f) := Persist(file, fault, doc);
    Effect(Wrap(prefix, out), doc, f, [])
  }

  /** The effect of `ExecuteCommand(args, cfg)` when `cfg` holds `doc`, the file
      is `file`, writes fail with `fault`, and the provider answers `respond`. */
  function ExecuteEffect(args: ParsedArgs, doc: ConfigData, file: FileState, fault: Option<string>,
                         respond: Responder): (e: Effect)
  {
    var c := args.command;
    if c == CommandGetWeather then
      match IndexOf(doc.locations, args.location)
      case None => Effect(Fail(ErrGetLocation + ErrLocationNotFound), doc, file, [])
      case Some(i) =>
        var loc := doc.locations[i];
        match respond(doc, loc)
        case Err(e) => Effect(Fail(ErrFetch + e), doc, file, [loc])
        case Ok(_) => Effect(Pass, doc, file, [loc])
    else if c == CommandAddLocation then
      if HasName(doc.locations, args.name) then
        Effect(Fail(ErrAdd + ErrDuplicate(args.name)), doc, file, [])
      else
        Saved(ErrAdd, doc.(locations := doc.locations + [Location(args.name, args.latitude, args.longitude)]),
              file, fault)
    else if c == CommandRemoveLocation then
      if !HasName(doc.locations, args.name) then
        Effect(Fail(ErrRemove + ErrLocationNotFound), doc, file, [])
      else
        Saved(ErrRemove, doc.(locations := RemovedFirst(doc.locations, args.name)), file, fault)
    else if c == CommandSetUnit then
      Saved(ErrSave, doc.(temperatureUnit := args.unit), file, fault)
    else if c == CommandSetInterval then
      Saved(ErrSave, doc.(forecastInterval := args.interval), file, fault)
    else if c == CommandListLocations || c == CommandHelp then
      Effect(Pass, doc, file, [])
    else if c == CommandSetAPIKey then
      Saved(ErrSave, doc.(apiKey := args.apiKey), file, fault)
    else
      Effect(Fail(ErrUnknown), doc, file, [])
  }

  /** `executeGetWeather`: look the location up, then ask the provider; the configuration is only read. */
  method ExecuteGetWeather(args: ParsedArgs, cfg: Config, store: Store, service: WeatherService)
    returns (err: Outcome)
    modifies service`requests
    ensures !HasName(cfg.locations, args.location) ==>
      err == Fail(ErrGetLocation + ErrLocationNotFound) && service.requests == old(service.requests)
    ensures HasName(cfg.locations, args.location) ==>
      var loc := cfg.locations[IndexOf(cfg.locations, args.location).value];
      && service.requests == old(service.requests) + [loc]
      && err == match service.respond(cfg.Value(), loc)
                case Err(e) => Fail(ErrFetch + e)
                case Ok(_) => Pass
  {
    var m := new Manager(cfg, store);
    var loc := m.GetLocation(args.location);
    if loc.Err? {
      return Fail(ErrGetLocation + loc.msg);
    }
    var data := service.GetWeatherForecast(cfg, loc.value);
    if data.Err? {
      return Fail(ErrFetch + data.msg);
    }
    return Pass;
  }

  /** `executeAddLocation`: the registry's add, its error wrapped. */
  method ExecuteAddLocation(args: ParsedArgs, cfg: Config, store: Store) returns (err: Outcome)
    modifies cfg, store
    ensures HasName(old(cfg.locations), args.name) ==>
      && err == Fail(ErrAdd + ErrDuplicate(args.name))
      && cfg.Value() == old(cfg.Value()) && store.file == old(store.file)
    ensures !HasName(old(cfg.locations), args.name) ==>
      var doc := old(cfg.Value()).(locations := old(cfg.locations) + [Location(args.name, args.latitude, args.longitude)]);
      Effect(err, cfg.Value(), store.file, []) == Saved(ErrAdd, doc, old(store.file), store.writeFault)
  {
    var m := new Manager(cfg, store);
    err := m.AddLocation(args.name, args.latitude, args.longitude);
    err := Wrap(ErrAdd, err);
  }

  /** `executeRemoveLocation`: the registry's remove, its error wrapped. */
  method ExecuteRemoveLocation(args: ParsedArgs, cfg: Config, store: Store) returns (err: Outcome)
    modifies cfg, store
    ensures !HasName(old(cfg.locations), args.name) ==>
      && err == Fail(ErrRemove + ErrLocationNotFound)
      && cfg.Value() == old(cfg.Value()) && store.file == old(store.file)
    ensures HasName(old(cfg.locations), args.name) ==>
      var doc := old(cfg.Value()).(locations := RemovedFirst(old(cfg.locations), args.name));
      Effect(err, cfg.Value(), store.file, []) == Saved(ErrRemove, doc, old(store.file), store.writeFault)
  {
    var m := new Manager(cfg, store);
    err := m.RemoveLocation(args.name);
    err := Wrap(ErrRemove, err);
  }

  /** `executeSetUnit`: set the field, then save. */
  method ExecuteSetUnit(args: ParsedArgs, cfg: Config, store: Store) returns (err: Outcome)
    modifies cfg, store
    ensures Effect(err, cfg.Value(), store.file, []) ==
      Saved(ErrSave, old(cfg.Value()).(temperatureUnit := args.unit), old(store.file), store.writeFault)
  {
    cfg.SetTemperatureUnit(args.unit);
    err := store.Save(cfg);
    err := Wrap(ErrSave, err);
  }

  /** `executeSetInterval`: set the field, then save. */
  method ExecuteSetInterval(args: ParsedArgs, cfg: Config, store: Store) returns (err: Outcome)
    modifies cfg, store
    ensures Effect(err, cfg.Value(), store.file, []) ==
      Saved(ErrSave, old(cfg.Value()).(forecastInterval := args.interval), old(store.file), store.writeFault)
  {
    cfg.SetForecastInterval(args.interval);
    err := store.Save(cfg);
    err := Wrap(ErrSave, err);
  }

  /** `executeListLocations`: reads the list for display; never fails. */
  method ExecuteListLocations(cfg: Config, store: Store) returns (err: Outcome)
    ensures err == Pass
  {
    var m := new Manager(cfg, store);
    var locations := m.ListLocations();
    err := Pass;
  }

  /** `executeSetAPIKey`: set the field, then save. */
  method ExecuteSetAPIKey(args: ParsedArgs, cfg: Config, store: Store) returns (err: Outcome)
    modifies cfg, store
    ensures Effect(err, cfg.Value(), store.file, []) ==
      Saved(ErrSave, old(cfg.Value()).(apiKey := args.apiKey), old(store.file), store.writeFault)
  {
    cfg.SetAPIKey(args.apiKey);
    err := store.Save(cfg);
    err := Wrap(ErrSave, err);
  }

  /** `ExecuteCommand`: dispatch on the tag. */
  method ExecuteCommand(args: ParsedArgs, cfg: Config, store: Store, service: WeatherService)
    returns (err: Outcome)
    modifies cfg, store, service
    ensures var e := ExecuteEffect(args, old(cfg.Value()), old(store.file), store.writeFault, service.respond);
      && err == e.out && cfg.Value() == e.config && store.file == e.file
      && service.requests == old(service.requests) + e.fetched
  {
    var c := args.command;
    if c == CommandGetWeather {
      err := ExecuteGetWeather(args, cfg, store, service);
    } else if c == CommandAddLocation {
      err := ExecuteAddLocation(args, cfg, store);
    } else if c == CommandRemoveLocation {
      err := ExecuteRemoveLocation(args, cfg, store);
    } else if c == CommandSetUnit {
      err := ExecuteSetUnit(args, cfg, store);
    } else if c == CommandSetInterval {
      err := ExecuteSetInterval(args, cfg, store);
    } else if c == CommandListLocations {
      err := ExecuteListLocations(cfg, store);
    } else if c == CommandHelp {
      err := Pass;
    } else if c == CommandSetAPIKey {
      err := ExecuteSetAPIKey(args, cfg, store);
    } else {
      err := Fail(ErrUnknown);
    }
  }

  /** An unknown tag is an error with no effect at all. */
  lemma UnknownCommandChangesNothing(args: ParsedArgs, doc: ConfigData, file: FileState,
                                     fault: Option<string>, respond: Responder)
    requires !IsKnown(args.command)
    ensures ExecuteEffect(args, doc, file, fault, respond) == Effect(Fail(ErrUnknown), doc, file, [])
  {
  }

  /** Getting weather never changes the configuration or the file; an unknown
      location fails before the provider is asked, and otherwise the provider's
      answer alone decides the error. */
  lemma GetWeatherOnlyReads(args: ParsedArgs, doc: ConfigData, file: FileState,
                            fault: Option<string>, respond: Responder)
    requires args.command == CommandGetWeather
    ensures var e := ExecuteEffect(args, doc, file, fault, respond);
      && e.config == doc && e.file == file
      && (!HasName(doc.locations, args.location) ==>
            e.fetched == [] && e.out == Fail(ErrGetLocation + ErrLocationNotFound))
      && (HasName(doc.locations, args.location) ==>
            var loc := doc.locations[IndexOf(doc.locations, args.location).value];
            e.fetched == [loc] && (e.out.Pass? <==> respond(doc, loc).Ok?))
  {
  }

  /** Each setter sets exactly its field to the argument, whether or not the
      save that follows succeeds; an error can only come from that save, and
      then the file keeps its old content. */
  lemma SettersSetOneField(args: ParsedArgs, doc: ConfigData, file: FileState,
                           fault: Option<string>, respond: Responder)
    requires args.command in {CommandSetUnit, CommandSetInterval, CommandSetAPIKey}
    ensures var e := ExecuteEffect(args, doc, file, fault, respond);
      && e.config == (if args.command == CommandSetUnit then doc.(temperatureUnit := args.unit)
                      else if args.command == CommandSetInterval then doc.(forecastInterval := args.interval)
                      else doc.(apiKey := args.apiKey))
      && e.fetched == []
      && (e.out.Pass? <==> fault.None?)
      && (fault.None? ==> e.file == Holds(e.config))
      && (fault.Some? ==> e.out == Fail(ErrSave + ErrWriting + fault.value) && e.file == file)
  {
  }

  /** Listing and help always succeed and change nothing. */
  lemma ListAndHelpChangeNothing(args: ParsedArgs, doc: ConfigData, file: FileState,
                                 fault: Option<string>, respond: Responder)
    requires args.command == CommandListLocations || args.command == CommandHelp
    ensures ExecuteEffect(args, doc, file, fault, respond) == Effect(Pass, doc, file, [])
  {
  }

  /** Adding reports the registry's outcome: a taken name changes nothing, a
      fresh one is appended last and a lookup then finds exactly that entry. */
  lemma AddDelegatesToRegistry(args: ParsedArgs, doc: ConfigData, file: FileState,
                               fault: Option<string>, respond: Responder)
    requires args.command == CommandAddLocation
    ensures var e := ExecuteEffect(args, doc, file, fault, respond);
      && (HasName(doc.locations, args.name) ==>
            e == Effect(Fail(ErrAdd + ErrDuplicate(args.name)), doc, file, []))
      && (!HasName(doc.locations, args.name) ==>
            && e.config.locations == doc.locations + [Location(args.name, args.latitude, args.longitude)]
            && IndexOf(e.config.locations, args.name) == Some(|doc.locations|))
  {
    if !HasName(doc.locations, args.name) {
      AppendFresh(doc.locations, args.name, args.latitude, args.longitude);
    }
  }

  /** Removing reports the registry's outcome: an absent name changes nothing;
      under unique names, a removed name can no longer be found. */
  lemma RemoveDelegatesToRegistry(args: ParsedArgs, doc: ConfigData, file: FileState,
                                  fault: Option<string>, respond: Responder)
    requires args.command == CommandRemoveLocation
    ensures var e := ExecuteEffect(args, doc, file, fault, respond);
      && (!HasName(doc.locations, args.name) ==>
            e == Effect(Fail(ErrRemove + ErrLocationNotFound), doc, file, []))
      && (DistinctNames(doc.locations) ==> !HasName(e.config.locations, args.name))
  {
  }

  /** Every dispatch keeps location names unique, and leaves the file either as
      it was or holding the configuration it produced. */
  lemma ExecuteKeepsInvariant(args: ParsedArgs, doc: ConfigData, file: FileState,
                              fault: Option<string>, respond: Responder)
    requires DistinctNames(doc.locations)
    ensures var e := ExecuteEffect(args, doc, file, fault, respond);
      && DistinctNames(e.config.locations)
      && (e.file == file || e.file == Holds(e.config))
      && (e.out.Pass? && e.config != doc ==> e.file == Holds(e.config))
  {
    if args.command == CommandAddLocation && !HasName(doc.locations, args.name) {
      AppendFresh(doc.locations, args.name, args.latitude, args.longitude);
    } else if args.command == CommandRemoveLocation {
      RemovedFirstDistinct(doc.locations, args.name);
    }
  }
}
