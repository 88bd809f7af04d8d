/** What events and reconciliations achieve, with and without updates, over all runs. */
module ReconciliationTheorems {
  import opened Prelude
  import opened Reconciliation

  // ---------------------------------------------------------------- building

  /** Building only fills the cache. */
  lemma {:induction false} BuildingOnlyCaches(w: World, remote: seq<Id>)
    ensures var (v, works) := BuiltAll(w, remote);
            && v == w.(cache := v.cache) && |works| == |remote|
            && (forall i | 0 <= i < |remote| :: works[i].id == remote[i] && works[i].name == RowName(w, remote[i]))
            && (forall id :: id in v.cache <==> id in w.cache || id in remote)
            && (forall id | id in v.cache :: v.cache[id] == if id in w.cache then w.cache[id] else RowName(w, id))
            && (forall i | 0 <= i < |works| && remote[i] in w.cache :: !works[i].cached)
  {
    if remote != [] {
      var n := |remote| - 1;
      BuildingOnlyCaches(w, remote[..n]);
      assert remote == remote[..n] + [remote[n]];
    }
  }

  /** The first object built for a connection is the cached one, unless the cache had one before. */
  lemma {:induction false} SomeObjectIsCached(w: World, remote: seq<Id>, id: Id)
    requires id in remote && id !in w.cache
    ensures exists work | work in BuiltAll(w, remote).1 :: work.id == id && work.cached
  {
    var n := |remote| - 1;
    var (w1, works) := BuiltAll(w, remote[..n]);
    BuildingOnlyCaches(w, remote[..n]);
    assert remote == remote[..n] + [remote[n]];
    if id in remote[..n] {
      SomeObjectIsCached(w, remote[..n], id);
      var work :| work in works && work.id == id && work.cached;
      assert work in BuiltAll(w, remote).1;
    } else {
      assert Built(w1, remote[n]).1 in BuiltAll(w, remote).1;
    }
  }

  // ---------------------------------------------------------------- adding

  lemma NamedKeeps(w: World, o: Outcome, work: Work)
    requires Sound(w) && FreshNames(w, o.names) && WorkOk(w, work) && NameFor(w, o, work).Some?
    ensures var v := Named(w, work, NameFor(w, o, work).value);
            && Sound(v) && FreshNames(v, o.names) && RowName(v, work.id) == NameFor(w, o, work)
            && Extends(w, v, o.names) && (Linked(w) ==> Linked(v))
  {}

  lemma CreatedKeeps(w: World, o: Outcome, work: Work)
    requires Sound(w) && FreshNames(w, o.names) && WorkOk(w, work)
    ensures var v := Created(w, o, work);
            && Sound(v) && FreshNames(v, o.names) && Extends(w, v, o.names) && (Linked(w) ==> Linked(v))
  {
    if NameFor(w, o, work).Some? {
      NamedKeeps(w, o, work);
    }
  }

  /** Adding keeps rows, names new rows and links registrations to them. */
  lemma AddedKeeps(w: World, o: Outcome, work: Work, update: bool)
    requires Sound(w) && FreshNames(w, o.names) && WorkOk(w, work)
    ensures var v := Added(w, o, work, update);
            && Sound(v) && FreshNames(v, o.names) && Extends(w, v, o.names) && (Linked(w) ==> Linked(v))
  {
    if work.id !in w.owned {
      if update {
        CreatedKeeps(Dropped(w, work.id, work.name), o, work.(cached := false));
      } else {
        CreatedKeeps(w, o, work);
      }
    }
  }

  /** Without update, adding registers the connection exactly when it succeeds. */
  lemma AddedRegisters(w: World, o: Outcome, work: Work)
    requires Sound(w) && Linked(w) && FreshNames(w, o.names) && WorkOk(w, work)
    ensures var v := Added(w, o, work, false);
            Registered(v) == Registered(w) + if Succeeds(w, o, work.id) then {work.id} else {}
  {
    var v := Added(w, o, work, false);
    forall n | n in w.datasources ensures n in v.datasources && v.datasources[n] == w.datasources[n] {}
    if Succeeds(w, o, work.id) {
      var name := NameFor(w, o, work).value;
      assert v.datasources[name] == work.id;
    }
  }

  lemma DroppedRegistrations(w: World, work: Work, id: Id)
    requires Sound(w) && Linked(w) && WorkOk(w, work)
    ensures id in Registered(Dropped(w, work.id, work.name)) <==> id in Registered(w) && !(id == work.id && work.name.Some?)
  {
    var v := Dropped(w, work.id, work.name);
    if id in Registered(w) {
      var n :| n in w.datasources && w.datasources[n] == id;
      assert n in v.datasources ==> v.datasources[n] == id;
    }
  }

  /** With update, the connection is registered afterwards exactly when it succeeds, unless the object at work had
      no name to drop its registration by. */
  lemma AddedUpdates(w: World, o: Outcome, work: Work, id: Id)
    requires Sound(w) && Linked(w) && FreshNames(w, o.names) && WorkOk(w, work)
    ensures id in Registered(Added(w, o, work, true)) <==>
            if id == work.id && id !in w.owned then Succeeds(w, o, id) || (id in Registered(w) && work.name.None?)
            else id in Registered(w)
  {
    if work.id !in w.owned {
      var w1, again := Dropped(w, work.id, work.name), work.(cached := false);
      DroppedRegistrations(w, work, id);
      AddedRegisters(w1, o, again);
      assert Added(w1, o, again, false) == Added(w, o, work, true);
    }
  }

  ghost predicate AllOk(w: World, works: seq<Work>) { forall i | 0 <= i < |works| :: WorkOk(w, works[i]) }

  /** Every object carries the name its row had when it was built. */
  ghost predicate AsBuilt(w: World, works: seq<Work>) {
    forall i | 0 <= i < |works| :: works[i].name == RowName(w, works[i].id)
  }

  lemma {:induction false} AddedAllKeeps(w: World, o: Outcome, works: seq<Work>, update: bool)
    requires Sound(w) && FreshNames(w, o.names) && AllOk(w, works)
    ensures var v := AddedAll(w, o, works, update);
            && Sound(v) && FreshNames(v, o.names) && Extends(w, v, o.names) && (Linked(w) ==> Linked(v))
  {
    if works != [] {
      var n := |works| - 1;
      AddedAllKeeps(w, o, works[..n], update);
      assert WorkOk(w, works[n]);
      AddedKeeps(AddedAll(w, o, works[..n], update), o, works[n], update);
    }
  }

  /** Whether a listed connection is registered once it has been added. */
  predicate Renewed(w: World, o: Outcome, id: Id, update: bool) {
    Succeeds(w, o, id) || (id in Registered(w) && (id in w.owned || !update))
  }

  predicate Lists(works: seq<Work>, id: Id) { exists work | work in works :: work.id == id }

  lemma ListsMore(works: seq<Work>, id: Id)
    requires works != []
    ensures Lists(works, id) <==> Lists(works[..|works| - 1], id) || works[|works| - 1].id == id
  {
    var n := |works| - 1;
    assert works == works[..n] + [works[n]];
    if Lists(works[..n], id) {
      var work :| work in works[..n] && work.id == id;
      assert work in works;
    }
    if works[n].id == id { assert works[n] in works; }
  }

  lemma {:induction false} AddedAllRegisters(w: World, o: Outcome, works: seq<Work>, update: bool, id: Id)
    requires Sound(w) && Linked(w) && FreshNames(w, o.names) && AsBuilt(w, works)
    ensures id in Registered(AddedAll(w, o, works, update)) <==>
            if Lists(works, id) then Renewed(w, o, id, update) else id in Registered(w)
  {
    if works != [] {
      var n := |works| - 1;
      var v := AddedAll(w, o, works[..n], update);
      AddedAllRegisters(w, o, works[..n], update, id);
      ListsMore(works, id);
      AddedAllKeeps(w, o, works[..n], update);
      assert WorkOk(v, works[n]) && (Succeeds(v, o, works[n].id) <==> Succeeds(w, o, works[n].id));
      if update {
        AddedUpdates(v, o, works[n], id);
      } else {
        AddedRegisters(v, o, works[n]);
      }
    }
  }

  // ---------------------------------------------------------------- the cache

  /** Adding touches no other entry than that of the connection, which an update drops. */
  lemma AddedCache(w: World, o: Outcome, work: Work, update: bool, id: Id)
    ensures var v := Added(w, o, work, update);
            && (id in v.cache <==> id in w.cache && !(work.id == id && update && id !in w.owned))
            && (id in v.cache && !(work.cached && work.id == id && id !in w.owned) ==> v.cache[id] == w.cache[id])
            && v.owned == w.owned
  {}

  lemma {:induction false} AddedAllCache(w: World, o: Outcome, works: seq<Work>, update: bool, id: Id)
    ensures var v := AddedAll(w, o, works, update);
            && (id in v.cache <==> id in w.cache && !(Lists(works, id) && update && id !in w.owned))
            && (id in v.cache && (id in w.owned || forall work | work in works && work.id == id :: !work.cached) ==>
                  v.cache[id] == w.cache[id])
            && v.owned == w.owned
  {
    if works != [] {
      var n := |works| - 1;
      AddedAllCache(w, o, works[..n], update, id);
      AddedCache(AddedAll(w, o, works[..n], update), o, works[n], update, id);
      ListsMore(works, id);
      assert works[n] in works && forall work | work in works[..n] :: work in works;
    }
  }

  /** Rows are only added, and only for connections that naming gave a name. */
  lemma {:induction false} AddedAllRows(w: World, o: Outcome, works: seq<Work>, update: bool, id: Id)
    ensures var v := AddedAll(w, o, works, update);
            (id in w.rows ==> id in v.rows) && (id in v.rows ==> id in w.rows || id in o.names)
  {
    if works != [] { AddedAllRows(w, o, works[..|works| - 1], update, id); }
  }

  /** An entry has a name once its object has been at work, and could be named. */
  lemma {:induction false} CachedWorkIsNamed(w: World, o: Outcome, works: seq<Work>, id: Id)
    requires id in w.cache && id !in w.owned
    requires forall work | work in works && work.id == id :: work.name.Some? ==> CanBeNamed(w, o, id)
    ensures var v := AddedAll(w, o, works, false);
            && id in v.cache
            && (v.cache[id].Some? <==>
                w.cache[id].Some? || (CanBeNamed(w, o, id) && exists work | work in works :: work.id == id && work.cached))
  {
    if works != [] {
      var n := |works| - 1;
      var v := AddedAll(w, o, works[..n], false);
      assert works == works[..n] + [works[n]];
      assert works[n] in works && forall work | work in works[..n] :: work in works;
      CachedWorkIsNamed(w, o, works[..n], id);
      AddedAllCache(w, o, works[..n], false, id);
      AddedAllRows(w, o, works[..n], false, id);
      AddedCache(v, o, works[n], false, id);
      if works[n].id == id && works[n].cached {
        assert NameFor(v, o, works[n]).Some? <==> works[n].name.Some? || CanBeNamed(v, o, id);
      }
    }
  }

  // ---------------------------------------------------------------- deleting

  lemma LinkedIdsAreUnique(w: World)
    requires Linked(w)
    ensures IdsUnique(w.datasources)
  {}

  /** Deleting removes the registrations that the cache can name, and no others. */
  lemma DeletedAllRegistered(w: World, o: Outcome, ids: set<Id>, id: Id)
    requires Sound(w) && Linked(w)
    ensures id in Registered(DeletedAll(w, o, ids)) <==> id in Registered(w) && !(id in ids && RememberedId(w, id))
  {
    var v := DeletedAll(w, o, ids);
    if id in Registered(w) {
      var n :| n in w.datasources && w.datasources[n] == id;
      if id in Registered(v) {
        var m :| m in v.datasources && v.datasources[m] == id;
        assert m == n;
      } else {
        assert n !in v.datasources;
        var other :| other in ids && other in w.cache && w.cache[other] == Some(n);
        assert RowName(w, other) == Some(n);
      }
    }
  }

  /** And leaves every registration with its row, unless it deletes the row through an object without a name. */
  lemma DeletedAllLinked(w: World, o: Outcome, ids: set<Id>)
    requires Sound(w) && Linked(w)
    ensures Linked(DeletedAll(w, o, ids)) <==> !exists id | id in ids :: NamelessDeletion(w, o, id)
  {
    var v := DeletedAll(w, o, ids);
    forall id | id in ids && NamelessDeletion(w, o, id) ensures !Linked(v) {
      DeletedAllRegistered(w, o, ids, id);
      assert id !in v.rows;
    }
    if !exists id | id in ids :: NamelessDeletion(w, o, id) {
      forall n | n in v.datasources ensures v.datasources[n] in v.rows && v.rows[v.datasources[n]] == n {
        var id := v.datasources[n];
        assert id in Registered(w) && (id in ids ==> !NamelessDeletion(w, o, id));
      }
    }
  }

  lemma DeletedAllSound(w: World, o: Outcome, ids: set<Id>)
    requires Sound(w)
    ensures Sound(DeletedAll(w, o, ids))
  {}

  /** One deletion is a deletion of a set of one. */
  lemma DeletedIsDeletedAll(w: World, o: Outcome, id: Id)
    ensures Deleted(w, o, id) == DeletedAll(w, o, {id})
  {
    var u, v := Deleted(w, o, id), DeletedAll(w, o, {id});
    assert u.rows == v.rows;
    assert u.datasources == v.datasources;
    assert u.cache == v.cache;
  }

  // ---------------------------------------------------------------- one reconciliation

  lemma BuiltKeeps(w: World, remote: seq<Id>)
    requires Sound(w)
    ensures var (w1, works) := BuiltAll(w, remote);
            && Sound(w1) && AsBuilt(w1, works) && AllOk(w1, works) && (Linked(w) ==> Linked(w1))
  {
    BuildingOnlyCaches(w, remote);
  }

  lemma BuiltLists(w: World, remote: seq<Id>, id: Id)
    ensures Lists(BuiltAll(w, remote).1, id) <==> id in remote
  {
    var works := BuiltAll(w, remote).1;
    BuildingOnlyCaches(w, remote);
    if id in remote {
      var i :| 0 <= i < |remote| && remote[i] == id;
      assert works[i] in works;
    }
  }

  /** The state between the additions and the deletions of a reconciliation. */
  function AllAdded(w: World, o: Outcome, remote: seq<Id>, update: bool): World {
    var (w1, works) := BuiltAll(w, remote);
    AddedAll(w1, o, works, update)
  }

  lemma AllAddedKeeps(w: World, o: Outcome, remote: seq<Id>, update: bool)
    requires Sound(w) && FreshNames(w, o.names)
    ensures var v := AllAdded(w, o, remote, update);
            && Sound(v) && (Linked(w) ==> Linked(v))
            && (IdsUnique(w.datasources) ==> Synchronized(w, o, remote, update) == DeletedAll(v, o, Vanished(w, remote)))
  {
    var (w1, works) := BuiltAll(w, remote);
    BuildingOnlyCaches(w, remote);
    BuiltKeeps(w, remote);
    AddedAllKeeps(w1, o, works, update);
  }

  lemma AllAddedRegisters(w: World, o: Outcome, remote: seq<Id>, update: bool, id: Id)
    requires Sound(w) && Linked(w) && FreshNames(w, o.names)
    ensures id in Registered(AllAdded(w, o, remote, update)) <==>
            if id in remote then Renewed(w, o, id, update) else id in Registered(w)
  {
    var (w1, works) := BuiltAll(w, remote);
    BuildingOnlyCaches(w, remote);
    BuiltKeeps(w, remote);
    BuiltLists(w, remote, id);
    AddedAllRegisters(w1, o, works, update, id);
  }

  /** The registered connections after a reconciliation of either form. */
  lemma ReconciliationResult(w: World, o: Outcome, remote: seq<Id>, update: bool, id: Id)
    requires Sound(w) && Linked(w) && FreshNames(w, o.names)
    ensures id in Registered(Synchronized(w, o, remote, update)) <==>
            if id in remote then Renewed(w, o, id, update) else id in Registered(w) && !RememberedId(w, id)
  {
    LinkedIdsAreUnique(w);
    AllAddedKeeps(w, o, remote, update);
    AllAddedRegisters(w, o, remote, update, id);
    DeletedAllRegistered(AllAdded(w, o, remote, update), o, Vanished(w, remote), id);
    if id !in remote { OthersStayCached(w, o, remote, update, id); }
  }

  lemma OthersStayCached(w: World, o: Outcome, remote: seq<Id>, update: bool, id: Id)
    requires id !in remote
    ensures var v := AllAdded(w, o, remote, update);
            (id in v.cache <==> id in w.cache) && (id in v.cache ==> v.cache[id] == w.cache[id])
  {
    var (w1, works) := BuiltAll(w, remote);
    BuildingOnlyCaches(w, remote);
    assert forall work | work in works :: work.id != id;
    AddedAllCache(w1, o, works, update, id);
  }

  /** The cache after a reconciliation with update: the listed connections are gone from it, unless a
      virtualization owns them, and so are the vanished ones. */
  lemma CacheAfterUpdate(w: World, o: Outcome, remote: seq<Id>, id: Id)
    requires IdsUnique(w.datasources)
    ensures var v := Synchronized(w, o, remote, true);
            && (id in v.cache <==> if id in remote then id in w.owned else id in w.cache && id !in Registered(w))
            && (id in v.cache ==> v.cache[id] == if id in w.cache then w.cache[id] else RowName(w, id))
  {
    var (w1, works) := BuiltAll(w, remote);
    BuildingOnlyCaches(w, remote);
    BuiltLists(w, remote, id);
    AddedAllCache(w1, o, works, true, id);
  }

  // ---------------------------------------------------------------- rows and registrations

  lemma ReconciliationKeeps(w: World, o: Outcome, remote: seq<Id>, update: bool)
    requires Sound(w) && FreshNames(w, o.names)
    ensures Sound(Synchronized(w, o, remote, update))
  {
    AllAddedKeeps(w, o, remote, update);
    BuiltKeeps(w, remote);
    DeletedAllSound(AllAdded(w, o, remote, update), o, Vanished(w, remote));
  }

  lemma SoundStep(w: World, o: Outcome, e: Event)
    requires Sound(w) && FreshNames(w, o.names)
    ensures Sound(Handled(w, o, e))
  {
    match e
    case ConnectionAdded(id, update) =>
      if id in w.cache {
        AddedKeeps(w, o, Work(id, w.cache[id], true), update);
      } else {
        AddedKeeps(Built(w, id).0, o, Built(w, id).1, update);
      }
    case ConnectionDeleted(id) =>
      DeletedIsDeletedAll(w, o, id);
      DeletedAllSound(w, o, {id});
    case Synchronize(remote, update) => ReconciliationKeeps(w, o, remote, update);
    case LookedUp(_) =>
  }

  lemma OwnersStay(w: World, o: Outcome, e: Event)
    requires Sound(w) && FreshNames(w, o.names)
    ensures Handled(w, o, e).owned == w.owned
  {
    if e.Synchronize? {
      var (w1, works) := BuiltAll(w, e.remote);
      BuildingOnlyCaches(w, e.remote);
      BuiltKeeps(w, e.remote);
      AddedAllKeeps(w1, o, works, e.update);
    }
  }

  /** Whatever happens, no two rows share a name, an object at work has the name of its row or none, and
      virtualizations own the connections that they owned at the start. */
  lemma {:induction false} SoundOverRuns(rows: map<Id, string>, owned: set<Id>, events: seq<(Event, Outcome)>)
    requires RowsDistinct(Start(rows, owned)) && IsRun(Start(rows, owned), events)
    ensures Sound(Run(Start(rows, owned), events)) && Run(Start(rows, owned), events).owned == owned
  {
    if events != [] {
      var n := |events| - 1;
      SoundOverRuns(rows, owned, events[..n]);
      SoundStep(Run(Start(rows, owned), events[..n]), events[n].1, events[n].0);
      OwnersStay(Run(Start(rows, owned), events[..n]), events[n].1, events[n].0);
    }
  }

  lemma ReconciliationLinks(w: World, o: Outcome, remote: seq<Id>, update: bool)
    requires Sound(w) && Linked(w) && FreshNames(w, o.names)
    ensures Linked(Synchronized(w, o, remote, update)) <==> !Nameless(w, o, Synchronize(remote, update))
  {
    var v := AllAdded(w, o, remote, update);
    LinkedIdsAreUnique(w);
    AllAddedKeeps(w, o, remote, update);
    DeletedAllLinked(v, o, Vanished(w, remote));
    forall id | id in Vanished(w, remote) ensures NamelessDeletion(v, o, id) <==> NamelessDeletion(w, o, id) {
      AllAddedRegisters(w, o, remote, update, id);
      OthersStayCached(w, o, remote, update, id);
    }
  }

  /** A step leaves every registration with its row, if and only if it deletes no row through an object without a
      name. */
  lemma LinkIsExact(w: World, o: Outcome, e: Event)
    requires Sound(w) && Linked(w) && FreshNames(w, o.names)
    ensures Linked(Handled(w, o, e)) <==> !Nameless(w, o, e)
  {
    match e
    case ConnectionAdded(id, update) =>
      if id in w.cache {
        AddedKeeps(w, o, Work(id, w.cache[id], true), update);
      } else {
        AddedKeeps(Built(w, id).0, o, Built(w, id).1, update);
      }
    case ConnectionDeleted(id) =>
      DeletedIsDeletedAll(w, o, id);
      DeletedAllLinked(w, o, {id});
    case Synchronize(remote, update) => ReconciliationLinks(w, o, remote, update);
    case LookedUp(_) =>
  }

  lemma {:induction false} LinkedOverRuns(rows: map<Id, string>, owned: set<Id>, events: seq<(Event, Outcome)>)
    requires RowsDistinct(Start(rows, owned)) && IsRun(Start(rows, owned), events)
    ensures AlwaysLinked(Start(rows, owned), events) <==> NeverNameless(Start(rows, owned), events)
  {
    if events != [] {
      var n := |events| - 1;
      var w := Run(Start(rows, owned), events[..n]);
      LinkedOverRuns(rows, owned, events[..n]);
      SoundOverRuns(rows, owned, events[..n]);
      if AlwaysLinked(Start(rows, owned), events[..n]) {
        assert Linked(w);
        LinkIsExact(w, events[n].1, events[n].0);
      }
    }
  }
}
