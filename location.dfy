/** The location registry of internal/location/location.go: a `Manager` over
    a shared `Config` that enforces unique names on add and existence on
    remove, get and update, and saves after every successful change. */
module Locations {
  import opened Common
  import opened Configuration

  function ErrDuplicate(name: string): (msg: string)
  {
    "location with name '" + name + "' already exists"
  }

  /** The list with the coordinates of its first location called `name` replaced. */
  function Updated(locs: seq<Location>, name: string, lat: real, lon: real): (r: seq<Location>)
  {
    match IndexOf(locs, name)
    case None => locs
    case Some(i) => locs[i := Location(locs[i].name, lat, lon)]
  }

  /** An update moves no location and renames none; only the first match gets the new coordinates. */
  lemma UpdatedShape(locs: seq<Location>, name: string, lat: real, lon: real)
    ensures |Updated(locs, name, lat, lon)| == |locs|
    ensures forall k :: 0 <= k < |locs| ==> Updated(locs, name, lat, lon)[k].name == locs[k].name
    ensures forall k :: 0 <= k < |locs| && Some(k) != IndexOf(locs, name) ==>
      Updated(locs, name, lat, lon)[k] == locs[k]
    ensures HasName(locs, name) ==>
      Updated(locs, name, lat, lon)[IndexOf(locs, name).value] == Location(name, lat, lon)
    ensures DistinctNames(locs) ==> DistinctNames(Updated(locs, name, lat, lon))
  {
  }

  /** Appending a fresh name keeps names unique, and the new entry is what a lookup finds. */
  lemma AppendFresh(locs: seq<Location>, name: string, lat: real, lon: real)
    requires !HasName(locs, name)
    ensures DistinctNames(locs) ==> DistinctNames(locs + [Location(name, lat, lon)])
    ensures IndexOf(locs + [Location(name, lat, lon)], name) == Some(|locs|)
  {
    var added := locs + [Location(name, lat, lon)];
    assert added[|locs|].name == name;
    assert forall j :: 0 <= j < |locs| ==> added[j] == locs[j];
  }

  /** The registry view of one configuration. */
  class Manager {
    const cfg: Config
    /** The file every successful change is saved to. */
    const store: Store

    /** `NewManager`. */
    constructor (cfg: Config, store: Store)
      ensures this.cfg == cfg && this.store == store
    {
      this.cfg := cfg;
      this.store := store;
    }

    /** Adds a location under a fresh name and saves; a taken name fails with no change and no save. */
    method AddLocation(name: string, lat: real, lon: real) returns (err: Outcome)
      modifies cfg, store
      ensures HasName(old(cfg.locations), name) ==>
        err == Fail(ErrDuplicate(name)) && cfg.Value() == old(cfg.Value()) && store.file == old(store.file)
      ensures !HasName(old(cfg.locations), name) ==>
        && cfg.Value() == old(cfg.Value()).(locations := old(cfg.locations) + [Location(name, lat, lon)])
        && (err, store.file) == Persist(old(store.file), store.writeFault, cfg.Value())
      ensures DistinctNames(old(cfg.locations)) ==> DistinctNames(cfg.locations)
    {
      for i := 0 to |cfg.locations|
        invariant forall j :: 0 <= j < i ==> cfg.locations[j].name != name
      {
        if cfg.locations[i].name == name {
          return Fail(ErrDuplicate(name));
        }
      }
      AppendFresh(cfg.locations, name, lat, lon);
      cfg.AddLocation(name, lat, lon);
      err := store.Save(cfg);
    }

    /** Removes the first location called `name` and saves; an absent name fails with no change and no save. */
    method RemoveLocation(name: string) returns (err: Outcome)
      modifies cfg, store
      ensures cfg.Value() == old(cfg.Value()).(locations := RemovedFirst(old(cfg.locations), name))
      ensures !HasName(old(cfg.locations), name) ==>
        err == Fail(ErrLocationNotFound) && store.file == old(store.file)
      ensures HasName(old(cfg.locations), name) ==>
        (err, store.file) == Persist(old(store.file), store.writeFault, cfg.Value())
    {
      err := cfg.RemoveLocation(name);
      if err.Fail? {
        return;
      }
      err := store.Save(cfg);
    }

    /** A copy of the first location called `name`, or "location not found". */
    method GetLocation(name: string) returns (r: Result<Location>)
      ensures r.Ok? <==> exists k :: 0 <= k < |cfg.locations| && cfg.locations[k].name == name
      ensures r.Ok? ==> r.value.name == name && exists k :: (
        && 0 <= k < |cfg.locations| && cfg.locations[k] == r.value
        && forall j :: 0 <= j < k ==> cfg.locations[j].name != name)
      ensures r.Err? ==> r.msg == ErrLocationNotFound
    {
      for i := 0 to |cfg.locations|
        invariant forall j :: 0 <= j < i ==> cfg.locations[j].name != name
      {
        if cfg.locations[i].name == name {
          return Ok(cfg.locations[i]);
        }
      }
      return Err(ErrLocationNotFound);
    }

    /** All saved locations, in insertion order. */
    method ListLocations() returns (locs: seq<Location>)
      ensures locs == cfg.locations
    {
      locs := cfg.locations;
    }

    /** Gives the first location called `name` new coordinates in place and saves;
        an absent name fails with no change and no save. */
    method UpdateLocation(name: string, lat: real, lon: real) returns (err: Outcome)
      modifies cfg`locations, store
      ensures cfg.locations == Updated(old(cfg.locations), name, lat, lon)
      ensures !HasName(old(cfg.locations), name) ==>
        err == Fail(ErrLocationNotFound) && store.file == old(store.file)
      ensures HasName(old(cfg.locations), name) ==>
        (err, store.file) == Persist(old(store.file), store.writeFault, cfg.Value())
    {
      for i := 0 to |cfg.locations|
        invariant cfg.locations == old(cfg.locations)
        invariant forall j :: 0 <= j < i ==> cfg.locations[j].name != name
      {
        if cfg.locations[i].name == name {
          cfg.locations := cfg.locations[i := cfg.locations[i].(latitude := lat, longitude := lon)];
          err := store.Save(cfg);
          return;
        }
      }
      return Fail(ErrLocationNotFound);
    }
  }

  /** Under unique names, a successful removal makes the next lookup of that name fail. */
  method RemoveThenGet(m: Manager, name: string) returns (got: Result<Location>)
    requires DistinctNames(m.cfg.locations)
    modifies m.cfg, m.store
    ensures HasName(old(m.cfg.locations), name) ==> got == Err(ErrLocationNotFound)
  {
    var err := m.RemoveLocation(name);
    RemovedFirstGone(old(m.cfg.locations), name);
    got := m.GetLocation(name);
  }
}
