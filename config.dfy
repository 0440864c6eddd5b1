/** The configuration aggregate of internal/config/config.go: the saved
    locations and the three preferences, the in-place mutators on it, and the
    JSON file it is persisted to, abstracted as a store holding a value. */
module Configuration {
  import opened Common

  /** A saved location. Coordinates are only stored and compared. */
  datatype Location = Location(name: string, latitude: real, longitude: real)

  /** The JSON document a `Config` serialises to (encoding is the identity). */
  datatype ConfigData = ConfigData(
    locations: seq<Location>,
    temperatureUnit: string,
    forecastInterval: int,
    apiKey: string)

  const DefaultTempUnit: string := "C"
  const DefaultForecastHours: int := 24

  /** The configuration `createDefaultConfig` builds on first run. */
  function DefaultConfig(): (d: ConfigData)
    ensures d.locations == [] && d.apiKey == ""
    ensures d.temperatureUnit == "C" && d.forecastInterval == 24
  {
    ConfigData([], DefaultTempUnit, DefaultForecastHours, "")
  }

  const ErrLocationNotFound: string := "location not found"

  /** Index of the first location called `name`, if any. */
  function IndexOf(locs: seq<Location>, name: string): (r: Option<nat>)
    ensures r.Some? ==> r.value < |locs| && locs[r.value].name == name
    ensures r.Some? ==> forall j :: 0 <= j < r.value ==> locs[j].name != name
    ensures r.None? ==> forall j :: 0 <= j < |locs| ==> locs[j].name != name
  {
    if |locs| == 0 then None
    else if locs[0].name == name then Some(0)
    else match IndexOf(locs[1..], name)
      case None => None
      case Some(i) => Some(i + 1)
  }

  /** Some saved location is called `name` (exact, case-sensitive match). */
  predicate HasName(locs: seq<Location>, name: string)
  {
    IndexOf(locs, name).Some?
  }

  /** No two saved locations share a name. */
  predicate DistinctNames(locs: seq<Location>)
  {
    forall i, j :: 0 <= i < j < |locs| ==> locs[i].name != locs[j].name
  }

  /** The list with its first location called `name` spliced out. */
  function RemovedFirst(locs: seq<Location>, name: string): (r: seq<Location>)
  {
    match IndexOf(locs, name)
    case None => locs
    case Some(i) => locs[..i] + locs[i + 1..]
  }

  /** Removal drops exactly the first match and keeps the others in order. */
  lemma RemovedFirstShape(locs: seq<Location>, name: string)
    requires HasName(locs, name)
    ensures var i := IndexOf(locs, name).value;
      && |RemovedFirst(locs, name)| == |locs| - 1
      && (forall k :: 0 <= k < i ==> RemovedFirst(locs, name)[k] == locs[k])
      && (forall k :: i <= k < |locs| - 1 ==> RemovedFirst(locs, name)[k] == locs[k + 1])
      && multiset(RemovedFirst(locs, name)) + multiset{locs[i]} == multiset(locs)
  {
    var i := IndexOf(locs, name).value;
    assert locs == locs[..i] + [locs[i]] + locs[i + 1..];
  }

  /** With unique names, no location called `name` survives its removal. */
  lemma RemovedFirstGone(locs: seq<Location>, name: string)
    requires DistinctNames(locs)
    ensures !HasName(RemovedFirst(locs, name), name)
  {
  }

  /** Removal keeps names unique. */
  lemma RemovedFirstDistinct(locs: seq<Location>, name: string)
    requires DistinctNames(locs)
    ensures DistinctNames(RemovedFirst(locs, name))
  {
  }

  /** Adding "New York" to an empty configuration and removing it gives an empty list again;
      removing "London" from the empty list fails. */
  lemma AddRemoveRoundTrip(lat: real, lon: real)
    ensures RemovedFirst([] + [Location("New York", lat, lon)], "New York") == []
    ensures !HasName([], "London") && RemovedFirst([], "London") == []
  {
  }

  /** Removing an absent name from a list holding only "Tokyo" keeps exactly that list. */
  lemma RemoveAbsentKeepsTokyo(lat: real, lon: real)
    ensures !HasName([Location("Tokyo", lat, lon)], "Nowhere")
    ensures RemovedFirst([Location("Tokyo", lat, lon)], "Nowhere") == [Location("Tokyo", lat, lon)]
  {
  }

  /** The state of the configuration file. */
  datatype FileState =
    | Missing                  // no file yet: the first run
    | Holds(doc: ConfigData)   // a well-formed document
    | Unreadable(cause: string)
    | Malformed(cause: string)

  const ErrWriting: string := "error writing config file: "
  const ErrReading: string := "error reading config file: "
  const ErrUnmarshaling: string := "error unmarshaling config: "
  const ErrSavingDefault: string := "error saving default config: "

  /** Effect of `SaveConfig(doc)` on a file whose directory fails writes with
      `fault` (None: writes succeed): the outcome and the new file. */
  function Persist(file: FileState, fault: Option<string>, doc: ConfigData): (r: (Outcome, FileState))
    ensures r.0.Pass? <==> fault.None?
    ensures r.0.Pass? ==> r.1 == Holds(doc)
    ensures r.0.Fail? ==> r.0.msg == ErrWriting + fault.value && r.1 == file
  {
    match fault
    case None => (Pass, Holds(doc))
    case Some(cause) => (Fail(ErrWriting + cause), file)
  }

  /** Effect of `LoadConfig()`: the document it returns (or its error) and the new file. */
  function Loaded(file: FileState, fault: Option<string>): (r: (Result<ConfigData>, FileState))
    ensures !file.Missing? ==> r.1 == file
    ensures r.0.Ok? ==> r.1 == Holds(r.0.value)
    ensures file.Holds? ==> r.0 == Ok(file.doc)
    ensures file.Unreadable? ==> r.0 == Err(ErrReading + file.cause)
    ensures file.Malformed? ==> r.0 == Err(ErrUnmarshaling + file.cause)
    ensures file.Missing? ==> (r.0.Ok? <==> fault.None?)
  {
    match file
    case Missing =>
      var (out, f) := Persist(file, fault, DefaultConfig());
      if out.Pass? then (Ok(DefaultConfig()), f) else (Err(ErrSavingDefault + out.msg), f)
    case Holds(doc) => (Ok(doc), file)
    case Unreadable(cause) => (Err(ErrReading + cause), file)
    case Malformed(cause) => (Err(ErrUnmarshaling + cause), file)
  }

  /** First run: a missing file yields the defaults and leaves them saved;
      when the defaults cannot be written, loading fails and nothing is created. */
  lemma LoadBootstrapsDefaults(fault: Option<string>)
    ensures fault.None? ==> Loaded(Missing, fault) == (Ok(DefaultConfig()), Holds(DefaultConfig()))
    ensures fault.Some? ==>
      Loaded(Missing, fault) == (Err(ErrSavingDefault + ErrWriting + fault.value), Missing)
  {
    if fault.Some? {
      assert ErrSavingDefault + (ErrWriting + fault.value) == ErrSavingDefault + ErrWriting + fault.value;
    }
  }

  /** A successful save followed by a load gives back the saved document. */
  lemma LoadAfterSave(file: FileState, fault: Option<string>, doc: ConfigData)
    requires Persist(file, fault, doc).0.Pass?
    ensures Loaded(Persist(file, fault, doc).1, fault) == (Ok(doc), Holds(doc))
  {
  }

  /** The in-memory configuration of one invocation, updated in place. */
  class Config {
    var locations: seq<Location>
    var temperatureUnit: string
    var forecastInterval: int
    var apiKey: string

    /** A `&Config{...}` literal. */
    constructor (doc: ConfigData)
      ensures Value() == doc
    {
      locations := doc.locations;
      temperatureUnit := doc.temperatureUnit;
      forecastInterval := doc.forecastInterval;
      apiKey := doc.apiKey;
    }

    /** The document this configuration serialises to. */
    function Value(): ConfigData
      reads this
    {
      ConfigData(locations, temperatureUnit, forecastInterval, apiKey)
    }

    /** Appends the location at the end, with no duplicate check. */
    method AddLocation(name: string, lat: real, lon: real)
      modifies this`locations
      ensures locations == old(locations) + [Location(name, lat, lon)]
      ensures Value() == old(Value()).(locations := locations)
    {
      locations := locations + [Location(name, lat, lon)];
    }

    /** Splices out the first location called `name`, or fails leaving the list alone. */
    method RemoveLocation(name: string) returns (err: Outcome)
      modifies this`locations
      ensures err == if HasName(old(locations), name) then Pass else Fail(ErrLocationNotFound)
      ensures locations == RemovedFirst(old(locations), name)
      ensures Value() == old(Value()).(locations := locations)
    {
      for i := 0 to |locations|
        invariant locations == old(locations)
        invariant forall j :: 0 <= j < i ==> locations[j].name != name
      {
        if locations[i].name == name {
          locations := locations[..i] + locations[i + 1..];
          return Pass;
        }
      }
      return Fail(ErrLocationNotFound);
    }

    /** Sets the unit to exactly `unit`, unvalidated. */
    method SetTemperatureUnit(unit: string)
      modifies this`temperatureUnit
      ensures Value() == old(Value()).(temperatureUnit := unit)
    {
      temperatureUnit := unit;
    }

    /** Sets the interval to exactly `hours`, unvalidated. */
    method SetForecastInterval(hours: int)
      modifies this`forecastInterval
      ensures Value() == old(Value()).(forecastInterval := hours)
    {
      forecastInterval := hours;
    }

    /** Sets the API key to exactly `key`, unvalidated. */
    method SetAPIKey(key: string)
      modifies this`apiKey
      ensures Value() == old(Value()).(apiKey := key)
    {
      apiKey := key;
    }
  }

  /** The configuration file at its fixed per-user path. */
  class Store {
    var file: FileState
    /** How writes to the file's directory fail, if they do. */
    const writeFault: Option<string>

    constructor (file: FileState, writeFault: Option<string>)
      ensures this.file == file && this.writeFault == writeFault
    {
      this.file := file;
      this.writeFault := writeFault;
    }

    /** `SaveConfig`: overwrites the file with the configuration, or fails leaving it alone. */
    method Save(cfg: Config) returns (err: Outcome)
      modifies this`file
      ensures (err, file) == Persist(old(file), writeFault, cfg.Value())
    {
      match writeFault
      case None =>
        file := Holds(cfg.Value());
        err := Pass;
      case Some(cause) =>
        err := Fail(ErrWriting + cause);
    }

    /** `createDefaultConfig`: builds the defaults, then saves them. */
    method CreateDefaultConfig() returns (r: Result<Config>)
      modifies this`file
      ensures (file, r.Ok?) == (Persist(old(file), writeFault, DefaultConfig()).1, writeFault.None?)
      ensures r.Ok? ==> fresh(r.value) && r.value.Value() == DefaultConfig()
      ensures r.Err? ==> r.msg == ErrSavingDefault + ErrWriting + writeFault.value
    {
      var cfg := new Config(ConfigData([], DefaultTempUnit, DefaultForecastHours, ""));
      var err := Save(cfg);
      if err.Fail? {
        return Err(ErrSavingDefault + err.msg);
      }
      return Ok(cfg);
    }

    /** `LoadConfig`: reads the file, creating it with the defaults when it is missing. */
    method LoadConfig() returns (r: Result<Config>)
      modifies this`file
      ensures file == Loaded(old(file), writeFault).1
      ensures r.Ok? == Loaded(old(file), writeFault).0.Ok?
      ensures r.Ok? ==> fresh(r.value) && r.value.Value() == Loaded(old(file), writeFault).0.value
      ensures r.Err? ==> r.msg == Loaded(old(file), writeFault).0.msg
    {
      match file
      case Missing =>
        r := CreateDefaultConfig();
      case Unreadable(cause) =>
        r := Err(ErrReading + cause);
      case Malformed(cause) =>
        r := Err(ErrUnmarshaling + cause);
      case Holds(doc) =>
        var cfg := new Config(doc);
        r := Ok(cfg);
    }
  }

  /** Save then load on one store returns a configuration equal to the one saved. */
  method SaveThenLoad(store: Store, cfg: Config) returns (loaded: Result<Config>)
    requires store.writeFault.None?
    modifies store
    ensures loaded.Ok? && loaded.value.Value() == old(cfg.Value())
  {
    var err := store.Save(cfg);
    loaded := store.LoadConfig();
  }
}
