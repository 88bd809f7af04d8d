/** Keeping the registered data sources in step with the remote list of connections: events about single
    connections, and the reconciliation of the whole list. */
module Reconciliation {
  import opened Prelude

  type Id = string

  /** `rows` are the schema rows with the names they give to connections, `datasources` what the server has
      registered under which name, `cache` the data source objects this pod remembers, with their names, and
      `owned` the connections that virtualizations publish themselves. */
  datatype World = World(
    rows: map<Id, string>,
    datasources: map<string, Id>,
    cache: map<Id, Option<string>>,
    owned: set<Id>)

  /** What the environment decides about one call: the name an unnamed connection gets, if naming succeeds, the
      connections whose registration fails, and those whose row cannot be deleted. */
  datatype Outcome = Outcome(names: map<Id, string>, refused: set<Id>, kept: set<Id>)

  /** A data source object at work; `cached` says that it is the one the cache holds. */
  datatype Work = Work(id: Id, name: Option<string>, cached: bool)

  function RowName(w: World, id: Id): Option<string> { if id in w.rows then Some(w.rows[id]) else None }

  /** Reading a remote connection makes an object, which the cache takes if it has none. */
  function Built(w: World, id: Id): (World, Work) {
    if id in w.cache then (w, Work(id, RowName(w, id), false))
    else (w.(cache := w.cache[id := RowName(w, id)]), Work(id, RowName(w, id), true))
  }

  function BuiltAll(w: World, remote: seq<Id>): (World, seq<Work>) {
    if remote == [] then (w, [])
    else
      var n := |remote| - 1;
      var (w1, works) := BuiltAll(w, remote[..n]);
      var (w2, work) := Built(w1, remote[n]);
      (w2, works + [work])
  }

  /** The name the connection is registered under. */
  function NameFor(w: World, o: Outcome, work: Work): Option<string> {
    if work.name.Some? then work.name
    else if work.id in w.rows then Some(w.rows[work.id])
    else if work.id in o.names then Some(o.names[work.id])
    else None
  }

  /** An unnamed connection gets its row, and the object at work its name. */
  function Named(w: World, work: Work, name: string): World {
    w.(rows := if work.name.None? && work.id !in w.rows then w.rows[work.id := name] else w.rows,
       cache := if work.cached && work.id in w.cache then w.cache[work.id := Some(name)] else w.cache)
  }

  function Created(w: World, o: Outcome, work: Work): World {
    match NameFor(w, o, work)
    case None => w
    case Some(name) =>
      var w1 := Named(w, work, name);
      if name in w.datasources || work.id in o.refused then w1
      else w1.(datasources := w.datasources[name := work.id])
  }

  /** A data source is dropped: its registration, and whatever the cache has for the connection. */
  function Dropped(w: World, id: Id, name: Option<string>): World {
    w.(datasources := if name.Some? then w.datasources - {name.value} else w.datasources, cache := w.cache - {id})
  }

  function Added(w: World, o: Outcome, work: Work, update: bool): World {
    if work.id in w.owned then w
    else if update then Created(Dropped(w, work.id, work.name), o, work.(cached := false))
    else Created(w, o, work)
  }

  function AddedAll(w: World, o: Outcome, works: seq<Work>, update: bool): World {
    if works == [] then w
    else Added(AddedAll(w, o, works[..|works| - 1], update), o, works[|works| - 1], update)
  }

  /** A deletion looks in the cache only; that the row cannot be deleted is logged. */
  function Deleted(w: World, o: Outcome, id: Id): World {
    if id in w.cache then Dropped(w.(rows := if id in o.kept then w.rows else w.rows - {id}), id, w.cache[id]) else w
  }

  /** The deletions of a set of connections, in any order. */
  function DeletedAll(w: World, o: Outcome, ids: set<Id>): World {
    w.(rows := w.rows - (ids * w.cache.Keys - o.kept),
       datasources := map n | n in w.datasources && !(exists id | id in ids :: id in w.cache && w.cache[id] == Some(n)) :: w.datasources[n],
       cache := w.cache - ids)
  }

  predicate IdsUnique(datasources: map<string, Id>) {
    forall m, n | m in datasources && n in datasources && datasources[m] == datasources[n] :: m == n
  }

  /** The registered connections that the remote list no longer has. */
  function Vanished(w: World, remote: seq<Id>): set<Id> { w.datasources.Values - (set id | id in remote) }

  /** The reconciliation; it ends in an exception when two registrations claim one connection. */
  function Synchronized(w: World, o: Outcome, remote: seq<Id>, update: bool): World {
    var (w1, works) := BuiltAll(w, remote);
    if !IdsUnique(w.datasources) then w1
    else DeletedAll(AddedAll(w1, o, works, update), o, Vanished(w, remote))
  }

  datatype Event =
    | ConnectionAdded(id: Id, update: bool)
    | ConnectionDeleted(id: Id)
    | Synchronize(remote: seq<Id>, update: bool)
    | LookedUp(name: string)

  /** An event about a connection works on the cached object, if there is one; publishing looks data sources up by
      name, and reads those again that the cache does not have. */
  function Handled(w: World, o: Outcome, e: Event): World {
    match e
    case ConnectionAdded(id, update) =>
      if id in w.cache then Added(w, o, Work(id, w.cache[id], true), update)
      else
        var (w1, work) := Built(w, id);
        Added(w1, o, work, update)
    case ConnectionDeleted(id) => Deleted(w, o, id)
    case Synchronize(remote, update) => Synchronized(w, o, remote, update)
    case LookedUp(name) =>
      if name in w.datasources && w.datasources[name] !in w.cache then Built(w, w.datasources[name]).0 else w
  }

  /** New names are unlike all others. */
  ghost predicate FreshNames(w: World, names: map<Id, string>) {
    && (forall i, j | i in names && j in names && i != j :: names[i] != names[j])
    && (forall i, j | i in names && j in w.rows && i != j :: names[i] != w.rows[j])
  }

  function Run(w: World, events: seq<(Event, Outcome)>): World {
    if events == [] then w
    else
      var n := |events| - 1;
      Handled(Run(w, events[..n]), events[n].1, events[n].0)
  }

  /** Any events, with or without updates, as long as naming gives out new names. */
  ghost predicate IsRun(w: World, events: seq<(Event, Outcome)>) {
    events == [] ||
    var n := |events| - 1;
    IsRun(w, events[..n]) && FreshNames(Run(w, events[..n]), events[n].1.names)
  }

  /** A pod starts with the rows of the database and nothing registered. */
  function Start(rows: map<Id, string>, owned: set<Id>): World { World(rows, map[], map[], owned) }

  // ---------------------------------------------------------------- what is kept

  function Registered(w: World): set<Id> { w.datasources.Values }

  ghost predicate RowsDistinct(w: World) {
    forall i, j | i in w.rows && j in w.rows && i != j :: w.rows[i] != w.rows[j]
  }

  /** The cache knows no name but the row's. */
  ghost predicate CacheOk(w: World) {
    forall id | id in w.cache && w.cache[id].Some? :: RowName(w, id) == w.cache[id]
  }

  /** What every run keeps. */
  ghost predicate Sound(w: World) { RowsDistinct(w) && CacheOk(w) }

  /** A connection is registered only under the name of its row. */
  ghost predicate Linked(w: World) {
    forall n | n in w.datasources :: w.datasources[n] in w.rows && w.rows[w.datasources[n]] == n
  }

  /** The object at work knows no other name than the row's. */
  predicate WorkOk(w: World, work: Work) { work.name.Some? ==> RowName(w, work.id) == work.name }

  predicate CanBeNamed(w: World, o: Outcome, id: Id) { id in w.rows || id in o.names }

  /** The connection ends up registered when it is added. */
  predicate Succeeds(w: World, o: Outcome, id: Id) { id !in w.owned && CanBeNamed(w, o, id) && id !in o.refused }

  /** Rows stay, and new rows are among the names given out. */
  ghost predicate Extends(w: World, v: World, names: map<Id, string>) {
    && v.owned == w.owned
    && (forall id | id in w.rows :: id in v.rows && v.rows[id] == w.rows[id])
    && (forall id | id in v.rows && id !in w.rows :: id in names)
  }

  // ---------------------------------------------------------------- how a registration loses its row

  /** The row of a registered connection is deleted through an object without a name, which leaves the
      registration. */
  predicate NamelessDeletion(w: World, o: Outcome, id: Id) {
    id in Registered(w) && id in w.cache && w.cache[id].None? && id !in o.kept
  }

  predicate Nameless(w: World, o: Outcome, e: Event) {
    match e
    case ConnectionDeleted(id) => NamelessDeletion(w, o, id)
    case Synchronize(remote, _) => exists id | id in Vanished(w, remote) :: NamelessDeletion(w, o, id)
    case _ => false
  }

  ghost predicate AlwaysLinked(w: World, events: seq<(Event, Outcome)>) {
    Linked(Run(w, events)) && (events == [] || AlwaysLinked(w, events[..|events| - 1]))
  }

  predicate NeverNameless(w: World, events: seq<(Event, Outcome)>) {
    events == [] ||
    var n := |events| - 1;
    NeverNameless(w, events[..n]) && !Nameless(Run(w, events[..n]), events[n].1, events[n].0)
  }

  // ---------------------------------------------------------------- what the cache remembers

  /** The cache has the connection under a name, so that a deletion will find its registration. */
  predicate RememberedId(w: World, id: Id) { id in w.cache && w.cache[id].Some? }

  /** The event leaves the connection in the cache, with a name. */
  predicate Files(w: World, o: Outcome, e: Event, id: Id) {
    match e
    case ConnectionAdded(i, update) =>
      i == id && if id in w.owned then id !in w.cache && id in w.rows else !update && CanBeNamed(w, o, id)
    case ConnectionDeleted(_) => false
    case Synchronize(remote, update) =>
      && id in remote && id !in w.cache
      && if id in w.owned || !IdsUnique(w.datasources) then id in w.rows else !update && CanBeNamed(w, o, id)
    case LookedUp(name) => name in w.datasources && w.datasources[name] == id && id !in w.cache && id in w.rows
  }

  /** The event takes the connection out of the cache. */
  predicate Drops(w: World, e: Event, id: Id) {
    match e
    case ConnectionAdded(i, update) => i == id && update && id !in w.owned
    case ConnectionDeleted(i) => i == id
    case Synchronize(remote, update) =>
      IdsUnique(w.datasources) && if id in remote then update && id !in w.owned else id in Registered(w)
    case LookedUp(_) => false
  }

  predicate FilesAt(w: World, events: seq<(Event, Outcome)>, id: Id, k: nat)
    requires k < |events|
  {
    Files(Run(w, events[..k]), events[k].1, events[k].0, id)
  }

  predicate DropsAt(w: World, events: seq<(Event, Outcome)>, id: Id, k: nat)
    requires k < |events|
  {
    Drops(Run(w, events[..k]), events[k].0, id)
  }

  /** Event `k` left the connection in the cache, and none has taken it out since. */
  ghost predicate FiledAt(w: World, events: seq<(Event, Outcome)>, id: Id, k: nat) {
    k < |events| && FilesAt(w, events, id, k) && forall j: nat | k < j < |events| :: !DropsAt(w, events, id, j)
  }

  ghost predicate FiledSince(w: World, events: seq<(Event, Outcome)>, id: Id) {
    exists k: nat :: FiledAt(w, events, id, k)
  }

  /** Every registered connection can be found, and under its name. */
  ghost predicate Remembered(w: World) {
    forall n | n in w.datasources :: w.datasources[n] in w.cache && w.cache[w.datasources[n]] == Some(n)
  }

  /** A connection is registered and left out of the cache: by an update, or because an object without a name is
      there in its place. */
  predicate Forgets(w: World, o: Outcome, e: Event) {
    match e
    case ConnectionAdded(id, update) => update && Succeeds(w, o, id)
    case Synchronize(remote, update) =>
      exists id | id in remote :: Succeeds(w, o, id) && (update || (id in w.cache && w.cache[id].None?))
    case _ => false
  }

  ghost predicate AlwaysRemembered(w: World, events: seq<(Event, Outcome)>) {
    Linked(Run(w, events)) && Remembered(Run(w, events))
    && (events == [] || AlwaysRemembered(w, events[..|events| - 1]))
  }

  predicate NeverForgets(w: World, events: seq<(Event, Outcome)>) {
    events == [] ||
    var n := |events| - 1;
    NeverForgets(w, events[..n]) && !Forgets(Run(w, events[..n]), events[n].1, events[n].0)
  }
}
