/** What the cache remembers over all runs, and so which vanished connections lose their registration. */
module ReconciliationMemory {
  import opened Prelude
  import opened Reconciliation
  import opened ReconciliationTheorems

  // ---------------------------------------------------------------- one step

  lemma AllAddedMemory(w: World, o: Outcome, remote: seq<Id>, update: bool, id: Id)
    ensures RememberedId(AllAdded(w, o, remote, update), id) <==>
            if id in remote && update && id !in w.owned then false
            else if id in w.cache then RememberedId(w, id)
            else id in remote && if id in w.owned then id in w.rows else CanBeNamed(w, o, id)
  {
    var (w1, works) := BuiltAll(w, remote);
    BuildingOnlyCaches(w, remote);
    BuiltLists(w, remote, id);
    AddedAllCache(w1, o, works, update, id);
    if id !in w.cache && id in remote && id !in w.owned && !update {
      SomeObjectIsCached(w, remote, id);
      forall work | work in works && work.id == id ensures work.name == RowName(w, id) {
        var i :| 0 <= i < |works| && works[i] == work;
      }
      CachedWorkIsNamed(w1, o, works, id);
    }
  }

  lemma MemoryThroughAddition(w: World, o: Outcome, i: Id, update: bool, id: Id)
    ensures var e := ConnectionAdded(i, update);
            RememberedId(Handled(w, o, e), id) <==> Files(w, o, e, id) || (RememberedId(w, id) && !Drops(w, e, id))
  {
    var (w1, work) := if i in w.cache then (w, Work(i, w.cache[i], true)) else Built(w, i);
    AddedCache(w1, o, work, update, id);
    if i == id && i !in w.owned && !update {
      assert NameFor(w1, o, work).Some? <==> work.name.Some? || CanBeNamed(w, o, id);
    }
  }

  lemma MemoryThroughReconciliation(w: World, o: Outcome, remote: seq<Id>, update: bool, id: Id)
    ensures var e := Synchronize(remote, update);
            RememberedId(Handled(w, o, e), id) <==> Files(w, o, e, id) || (RememberedId(w, id) && !Drops(w, e, id))
  {
    if IdsUnique(w.datasources) {
      AllAddedMemory(w, o, remote, update, id);
    } else {
      BuildingOnlyCaches(w, remote);
    }
  }

  /** A step leaves a connection remembered, if and only if it files it, or it was remembered and is not dropped. */
  lemma MemoryStep(w: World, o: Outcome, e: Event, id: Id)
    ensures RememberedId(Handled(w, o, e), id) <==> Files(w, o, e, id) || (RememberedId(w, id) && !Drops(w, e, id))
  {
    match e
    case ConnectionAdded(i, update) => MemoryThroughAddition(w, o, i, update, id);
    case Synchronize(remote, update) => MemoryThroughReconciliation(w, o, remote, update, id);
    case _ =>
  }

  // ---------------------------------------------------------------- runs

  lemma EarlierEvents(w: World, events: seq<(Event, Outcome)>, id: Id, k: nat)
    requires k < |events| - 1
    ensures FilesAt(w, events[..|events| - 1], id, k) == FilesAt(w, events, id, k)
    ensures DropsAt(w, events[..|events| - 1], id, k) == DropsAt(w, events, id, k)
  {
    assert events[..|events| - 1][..k] == events[..k];
  }

  lemma FiledEarlier(w: World, events: seq<(Event, Outcome)>, id: Id, k: nat)
    requires k < |events| - 1
    ensures FiledAt(w, events, id, k) <==> FiledAt(w, events[..|events| - 1], id, k) && !DropsAt(w, events, id, |events| - 1)
  {
    var n := |events| - 1;
    EarlierEvents(w, events, id, k);
    if FiledAt(w, events, id, k) {
      forall j: nat | k < j < n ensures !DropsAt(w, events[..n], id, j) { EarlierEvents(w, events, id, j); }
    }
    if FiledAt(w, events[..n], id, k) && !DropsAt(w, events, id, n) {
      forall j: nat | k < j < |events| ensures !DropsAt(w, events, id, j) {
        if j < n { EarlierEvents(w, events, id, j); }
      }
    }
  }

  lemma FiledStep(w: World, events: seq<(Event, Outcome)>, id: Id)
    requires events != []
    ensures var n := |events| - 1;
            FiledSince(w, events, id) <==>
            FilesAt(w, events, id, n) || (FiledSince(w, events[..n], id) && !DropsAt(w, events, id, n))
  {
    var n := |events| - 1;
    if FilesAt(w, events, id, n) { assert FiledAt(w, events, id, n); }
    if FiledSince(w, events[..n], id) && !DropsAt(w, events, id, n) {
      var k: nat :| FiledAt(w, events[..n], id, k);
      FiledEarlier(w, events, id, k);
    }
    if FiledSince(w, events, id) && !FilesAt(w, events, id, n) {
      var k: nat :| FiledAt(w, events, id, k);
      FiledEarlier(w, events, id, k);
    }
  }

  /** Over every run, a connection is remembered if and only if some event filed it and none has dropped it since. */
  lemma {:induction false} MemoryOverRuns(rows: map<Id, string>, owned: set<Id>, events: seq<(Event, Outcome)>, id: Id)
    ensures RememberedId(Run(Start(rows, owned), events), id) <==> FiledSince(Start(rows, owned), events, id)
  {
    if events != [] {
      var n := |events| - 1;
      MemoryOverRuns(rows, owned, events[..n], id);
      FiledStep(Start(rows, owned), events, id);
      MemoryStep(Run(Start(rows, owned), events[..n]), events[n].1, events[n].0, id);
    }
  }

  /** A deletion event removes a registration exactly when the cache has the connection with its name. */
  lemma DeletionWorks(w: World, o: Outcome, id: Id)
    requires Sound(w) && Linked(w) && id in Registered(w)
    ensures id !in Registered(Deleted(w, o, id)) <==> RememberedId(w, id)
  {
    DeletedIsDeletedAll(w, o, id);
    DeletedAllRegistered(w, o, {id}, id);
  }

  /** Over every run, a registered connection that is deleted remotely loses its registration, by the deletion event
      or by its absence from the list, if and only if some event filed it and none has dropped it since. */
  lemma RemovalOverRuns(rows: map<Id, string>, owned: set<Id>, events: seq<(Event, Outcome)>, id: Id,
                        o: Outcome, remote: seq<Id>, update: bool)
    requires RowsDistinct(Start(rows, owned)) && IsRun(Start(rows, owned), events)
    requires NeverNameless(Start(rows, owned), events) && id in Registered(Run(Start(rows, owned), events))
    requires FreshNames(Run(Start(rows, owned), events), o.names) && id !in remote
    ensures var w := Run(Start(rows, owned), events);
            && (id !in Registered(Handled(w, o, ConnectionDeleted(id))) <==> FiledSince(Start(rows, owned), events, id))
            && (id !in Registered(Handled(w, o, Synchronize(remote, update))) <==> FiledSince(Start(rows, owned), events, id))
  {
    SoundOverRuns(rows, owned, events);
    LinkedOverRuns(rows, owned, events);
    MemoryOverRuns(rows, owned, events, id);
    DeletionWorks(Run(Start(rows, owned), events), o, id);
    ReconciliationResult(Run(Start(rows, owned), events), o, remote, update, id);
  }

  /** Over every run, a reconciliation of either form leaves registered the listed connections that it renews, and
      of the others those that the cache has lost. */
  lemma RunsReconcile(rows: map<Id, string>, owned: set<Id>, events: seq<(Event, Outcome)>, o: Outcome, remote: seq<Id>, update: bool)
    requires RowsDistinct(Start(rows, owned)) && IsRun(Start(rows, owned), events)
    requires NeverNameless(Start(rows, owned), events) && FreshNames(Run(Start(rows, owned), events), o.names)
    ensures var w := Run(Start(rows, owned), events);
            Registered(Synchronized(w, o, remote, update))
            == (set id | id in remote && Renewed(w, o, id, update))
               + (set id | id in Registered(w) && id !in remote && !FiledSince(Start(rows, owned), events, id))
  {
    var w := Run(Start(rows, owned), events);
    SoundOverRuns(rows, owned, events);
    LinkedOverRuns(rows, owned, events);
    forall id
      ensures id in Registered(Synchronized(w, o, remote, update)) <==>
              if id in remote then Renewed(w, o, id, update)
              else id in Registered(w) && !FiledSince(Start(rows, owned), events, id)
    {
      ReconciliationResult(w, o, remote, update, id);
      MemoryOverRuns(rows, owned, events, id);
    }
  }

  // ---------------------------------------------------------------- everything remembered

  /** With rows and registrations linked, a remembered connection is remembered under its name. */
  lemma RememberedByIds(w: World)
    requires Sound(w) && Linked(w)
    ensures Remembered(w) <==> forall id | id in Registered(w) :: RememberedId(w, id)
  {
    forall n | n in w.datasources && RememberedId(w, w.datasources[n]) ensures w.cache[w.datasources[n]] == Some(n) {
      assert RowName(w, w.datasources[n]) == Some(n);
    }
    if Remembered(w) {
      forall id | id in Registered(w) ensures RememberedId(w, id) {
        var n :| n in w.datasources && w.datasources[n] == id;
      }
    }
    if forall id | id in Registered(w) :: RememberedId(w, id) {
      forall n | n in w.datasources ensures RememberedId(w, w.datasources[n]) {
        assert w.datasources[n] in Registered(w);
      }
    }
  }

  /** The registrations after an event about one connection. */
  lemma AdditionResult(w: World, o: Outcome, i: Id, update: bool, id: Id)
    requires Sound(w) && Linked(w) && FreshNames(w, o.names)
    ensures id in Registered(Handled(w, o, ConnectionAdded(i, update))) <==>
            if i == id && id !in w.owned
            then Succeeds(w, o, id) || (id in Registered(w) && (!update || (id in w.cache && w.cache[id].None?)))
            else id in Registered(w)
  {
    var (w1, work) := if i in w.cache then (w, Work(i, w.cache[i], true)) else Built(w, i);
    if update {
      AddedUpdates(w1, o, work, id);
    } else if i !in w.owned {
      AddedRegisters(w1, o, work);
    }
  }

  lemma AdditionRemembers(w: World, o: Outcome, i: Id, update: bool)
    requires Sound(w) && Linked(w) && Remembered(w) && FreshNames(w, o.names)
    ensures var e := ConnectionAdded(i, update);
            Linked(Handled(w, o, e)) && (Remembered(Handled(w, o, e)) <==> !Forgets(w, o, e))
  {
    var e := ConnectionAdded(i, update);
    SoundStep(w, o, e);
    LinkIsExact(w, o, e);
    RememberedByIds(w);
    RememberedByIds(Handled(w, o, e));
    forall id ensures id in Registered(Handled(w, o, e)) && !RememberedId(Handled(w, o, e), id) <==> id == i && Forgets(w, o, e) {
      AdditionResult(w, o, i, update, id);
      MemoryStep(w, o, e, id);
    }
  }

  lemma NothingIsNameless(w: World, o: Outcome, e: Event)
    requires Sound(w) && Linked(w) && Remembered(w)
    ensures !Nameless(w, o, e)
  {
    RememberedByIds(w);
  }

  lemma ReconciliationRemembers(w: World, o: Outcome, remote: seq<Id>, update: bool)
    requires Sound(w) && Linked(w) && Remembered(w) && FreshNames(w, o.names)
    ensures var e := Synchronize(remote, update);
            Linked(Handled(w, o, e)) && (Remembered(Handled(w, o, e)) <==> !Forgets(w, o, e))
  {
    var e := Synchronize(remote, update);
    SoundStep(w, o, e);
    NothingIsNameless(w, o, e);
    LinkIsExact(w, o, e);
    RememberedByIds(w);
    RememberedByIds(Handled(w, o, e));
    LinkedIdsAreUnique(w);
    forall id
      ensures id in Registered(Handled(w, o, e)) && !RememberedId(Handled(w, o, e), id) <==>
              id in remote && Succeeds(w, o, id) && (update || (id in w.cache && w.cache[id].None?))
    {
      ReconciliationResult(w, o, remote, update, id);
      MemoryStep(w, o, e, id);
    }
  }

  lemma DeletionRemembers(w: World, o: Outcome, i: Id)
    requires Sound(w) && Linked(w) && Remembered(w) && FreshNames(w, o.names)
    ensures var v := Deleted(w, o, i); Linked(v) && Remembered(v)
  {
    var e := ConnectionDeleted(i);
    SoundStep(w, o, e);
    NothingIsNameless(w, o, e);
    LinkIsExact(w, o, e);
    RememberedByIds(w);
    RememberedByIds(Deleted(w, o, i));
    DeletedIsDeletedAll(w, o, i);
    forall id | id in Registered(Deleted(w, o, i)) ensures RememberedId(Deleted(w, o, i), id) {
      DeletedAllRegistered(w, o, {i}, id);
      MemoryStep(w, o, e, id);
    }
  }

  /** From a state in which every registered connection is remembered, a step keeps it so if and only if it forgets
      none. */
  lemma RememberingIsExact(w: World, o: Outcome, e: Event)
    requires Sound(w) && Linked(w) && Remembered(w) && FreshNames(w, o.names)
    ensures Linked(Handled(w, o, e)) && (Remembered(Handled(w, o, e)) <==> !Forgets(w, o, e))
  {
    match e
    case ConnectionAdded(id, update) => AdditionRemembers(w, o, id, update);
    case ConnectionDeleted(id) => DeletionRemembers(w, o, id);
    case Synchronize(remote, update) => ReconciliationRemembers(w, o, remote, update);
    case LookedUp(_) =>
  }

  lemma {:induction false} RememberedOverRuns(rows: map<Id, string>, owned: set<Id>, events: seq<(Event, Outcome)>)
    requires RowsDistinct(Start(rows, owned)) && IsRun(Start(rows, owned), events)
    ensures AlwaysRemembered(Start(rows, owned), events) <==> NeverForgets(Start(rows, owned), events)
  {
    if events != [] {
      var n := |events| - 1;
      RememberedOverRuns(rows, owned, events[..n]);
      SoundOverRuns(rows, owned, events[..n]);
      if AlwaysRemembered(Start(rows, owned), events[..n]) {
        RememberingIsExact(Run(Start(rows, owned), events[..n]), events[n].1, events[n].0);
      }
    }
  }

  // ---------------------------------------------------------------- how it goes wrong

  /** A connection out of the cache outlives its deletion: the event is ignored, and so is its absence from the
      remote list. */
  lemma ForgottenOutlivesDeletion(w: World, o: Outcome, id: Id, remote: seq<Id>, update: bool)
    requires Sound(w) && Linked(w) && FreshNames(w, o.names) && id in Registered(w) && id !in w.cache && id !in remote
    ensures Handled(w, o, ConnectionDeleted(id)) == w
    ensures id in Registered(Synchronized(w, o, remote, update)) && id !in Synchronized(w, o, remote, update).cache
  {
    ReconciliationResult(w, o, remote, update, id);
    OthersStayCached(w, o, remote, update, id);
    LinkedIdsAreUnique(w);
  }

  /** The scheduled reconciliation puts every listed connection of a healthy pod into that state. */
  lemma ScheduledForgets(w: World, o: Outcome, remote: seq<Id>, id: Id)
    requires Sound(w) && Linked(w) && FreshNames(w, o.names) && id in remote && Succeeds(w, o, id)
    ensures var v := Synchronized(w, o, remote, true); id in Registered(v) && id !in v.cache
  {
    LinkedIdsAreUnique(w);
    ReconciliationResult(w, o, remote, true, id);
    CacheAfterUpdate(w, o, remote, id);
  }

  lemma Extend(w: World, events: seq<(Event, Outcome)>, e: Event, o: Outcome) returns (longer: seq<(Event, Outcome)>)
    requires IsRun(w, events) && FreshNames(Run(w, events), o.names)
    ensures IsRun(w, longer) && Run(w, longer) == Handled(Run(w, events), o, e)
  {
    longer := events + [(e, o)];
    assert longer[..|longer| - 1] == events;
  }

  lemma SynchronizesOne(w: World, o: Outcome, id: Id, name: string)
    requires w == World(map[], map[], map[id := None], {}) && o == Outcome(map[id := name], {}, {})
    ensures Synchronized(w, o, [id], false) == World(map[id := name], map[name := id], map[id := None], {})
  {
    var work := Work(id, None, false);
    assert [id][..0] == [] && [work][..0] == [];
    assert BuiltAll(w, []) == (w, []) && BuiltAll(w, [id]) == (w, [] + [work]);
    assert AddedAll(w, o, [], false) == w && AddedAll(w, o, [work], false) == Added(w, o, work, false);
    var v := World(map[id := name], map[name := id], map[id := None], {});
    assert Added(w, o, work, false) == v;
    var u := DeletedAll(v, o, {});
    assert u.rows == v.rows && u.datasources == v.datasources && u.cache == v.cache;
    assert Vanished(w, [id]) == {};
  }

  /** The state in which one connection is registered, its row gone and the cache without it. */
  lemma NamelessDeletionStrands(id: Id, name: string) returns (events: seq<(Event, Outcome)>)
    ensures IsRun(Start(map[], {}), events)
    ensures Run(Start(map[], {}), events) == World(map[], map[name := id], map[], {})
  {
    var start := Start(map[], {});
    var unnamed, named := Outcome(map[], {}, {}), Outcome(map[id := name], {}, {});
    assert IsRun(start, []) && Run(start, []) == start;
    events := Extend(start, [], ConnectionAdded(id, false), unnamed);
    assert Run(start, events) == World(map[], map[], map[id := None], {});
    SynchronizesOne(Run(start, events), named, id, name);
    events := Extend(start, events, Synchronize([id], false), named);
    events := Extend(start, events, ConnectionDeleted(id), unnamed);
  }

  /** A connection cannot be named at first, is named by the reconciliation, and deleted through the object that
      has no name.  When it returns under another name, two registrations claim it, and a reconciliation ends in an
      exception before it has added or deleted anything. */
  lemma TwoRegistrations(id: Id, was: string, now: string) returns (events: seq<(Event, Outcome)>)
    requires was != now
    ensures IsRun(Start(map[], {}), events)
    ensures var w := Run(Start(map[], {}), events);
            && w == World(map[id := now], map[was := id, now := id], map[id := Some(now)], {})
            && forall o, remote, update :: Synchronized(w, o, remote, update) == w.(cache := BuiltAll(w, remote).0.cache)
  {
    var start := Start(map[], {});
    events := NamelessDeletionStrands(id, was);
    events := Extend(start, events, ConnectionAdded(id, false), Outcome(map[id := now], {}, {}));
    var w := Run(start, events);
    assert w == World(map[id := now], map[was := id, now := id], map[id := Some(now)], {});
    assert w.datasources[was] == w.datasources[now];
    forall o, remote, update ensures Synchronized(w, o, remote, update) == w.(cache := BuiltAll(w, remote).0.cache) {
      BuildingOnlyCaches(w, remote);
    }
  }
}
