/** The scheduled reconciliations of a pod: an exception that is no failure of the connection service ends them for
    good, while events and reconnects go on. */
module ReconciliationSchedule {
  import opened Prelude
  import opened Reconciliation
  import opened ReconciliationTheorems
  import opened ReconciliationMemory

  /** `stopped` says that the executor has given up the scheduled task. */
  datatype Pod = Pod(world: World, stopped: bool)

  /** The scheduled task falls due, or something else happens: an event, a reconnect or a lookup. */
  datatype Happening = Due(remote: seq<Id>, connected: bool) | Other(event: Event)

  /** The task does its work unless it has been given up or the pod is not connected; two registrations of one
      connection make it throw an exception that it does not catch. */
  predicate TaskRuns(p: Pod, h: Happening) { h.Due? && h.connected && !p.stopped }

  predicate TaskThrows(p: Pod, h: Happening) { TaskRuns(p, h) && !IdsUnique(p.world.datasources) }

  function After(p: Pod, o: Outcome, h: Happening): Pod {
    match h
    case Due(remote, _) =>
      if TaskRuns(p, h) then Pod(Handled(p.world, o, Synchronize(remote, true)), TaskThrows(p, h)) else p
    case Other(e) => p.(world := Handled(p.world, o, e))
  }

  function Life(p: Pod, happenings: seq<(Happening, Outcome)>): Pod {
    if happenings == [] then p
    else
      var n := |happenings| - 1;
      After(Life(p, happenings[..n]), happenings[n].1, happenings[n].0)
  }

  function Born(rows: map<Id, string>, owned: set<Id>): Pod { Pod(Start(rows, owned), false) }

  // ---------------------------------------------------------------- when the schedule stops

  /** The scheduled task ran at position `k` and met two registrations of one connection. */
  predicate ThrowsAt(p: Pod, happenings: seq<(Happening, Outcome)>, k: nat) {
    k < |happenings| && TaskThrows(Life(p, happenings[..k]), happenings[k].0)
  }

  lemma ThrowsEarlier(p: Pod, happenings: seq<(Happening, Outcome)>, k: nat)
    requires k < |happenings| - 1
    ensures ThrowsAt(p, happenings[..|happenings| - 1], k) == ThrowsAt(p, happenings, k)
  {
    assert happenings[..|happenings| - 1][..k] == happenings[..k];
  }

  /** Over every run: the scheduled reconciliations have stopped if and only if one of them met two registrations of one
      connection. */
  lemma {:induction false} StoppedByTwoRegistrations(p: Pod, happenings: seq<(Happening, Outcome)>)
    requires !p.stopped
    ensures Life(p, happenings).stopped <==> exists k: nat :: ThrowsAt(p, happenings, k)
  {
    if happenings != [] {
      var n := |happenings| - 1;
      StoppedByTwoRegistrations(p, happenings[..n]);
      forall k: nat | k < n ensures ThrowsAt(p, happenings[..n], k) == ThrowsAt(p, happenings, k) { ThrowsEarlier(p, happenings, k); }
      if Life(p, happenings[..n]).stopped {
        var k: nat :| ThrowsAt(p, happenings[..n], k);
        assert ThrowsAt(p, happenings, k);
      } else if TaskThrows(Life(p, happenings[..n]), happenings[n].0) {
        assert ThrowsAt(p, happenings, n);
      }
    }
  }

  /** And then for good, whatever happens. */
  lemma {:induction false} StoppedForGood(p: Pod, happenings: seq<(Happening, Outcome)>)
    requires p.stopped
    ensures Life(p, happenings).stopped
  {
    if happenings != [] { StoppedForGood(p, happenings[..|happenings| - 1]); }
  }

  // ---------------------------------------------------------------- the run of events behind it

  /** What the happenings amount to as events: a task that does not run is none. */
  function Events(p: Pod, happenings: seq<(Happening, Outcome)>): seq<(Event, Outcome)> {
    if happenings == [] then []
    else
      var n := |happenings| - 1;
      var (h, o) := happenings[n];
      Events(p, happenings[..n]) +
      match h
      case Due(remote, _) => if TaskRuns(Life(p, happenings[..n]), h) then [(Synchronize(remote, true), o)] else []
      case Other(e) => [(e, o)]
  }

  lemma OneMore(w: World, events: seq<(Event, Outcome)>, e: Event, o: Outcome)
    ensures Run(w, events + [(e, o)]) == Handled(Run(w, events), o, e)
  {
    assert (events + [(e, o)])[..|events|] == events;
  }

  /** A pod's world is that of a run of events, so that all that holds over such runs holds of pods. */
  lemma {:induction false} PodsRun(p: Pod, happenings: seq<(Happening, Outcome)>)
    ensures Life(p, happenings).world == Run(p.world, Events(p, happenings))
  {
    if happenings != [] {
      var n := |happenings| - 1;
      var (h, o) := happenings[n];
      var events := Events(p, happenings[..n]);
      PodsRun(p, happenings[..n]);
      match h
      case Due(remote, _) =>
        OneMore(p.world, events, Synchronize(remote, true), o);
        assert events + [] == events;
      case Other(e) => OneMore(p.world, events, e, o);
    }
  }

  /** As long as no registered connection's row is deleted through an object without a name, the schedule goes on. */
  lemma {:induction false} LinkedPodsGoOn(rows: map<Id, string>, owned: set<Id>, happenings: seq<(Happening, Outcome)>)
    requires RowsDistinct(Start(rows, owned))
    requires var events := Events(Born(rows, owned), happenings);
             IsRun(Start(rows, owned), events) && NeverNameless(Start(rows, owned), events)
    ensures !Life(Born(rows, owned), happenings).stopped
  {
    if happenings != [] {
      var n := |happenings| - 1;
      var (p, start) := (Born(rows, owned), Start(rows, owned));
      var events, before := Events(p, happenings), Events(p, happenings[..n]);
      assert before == events || (events != [] && before == events[..|events| - 1]);
      LinkedPodsGoOn(rows, owned, happenings[..n]);
      PodsRun(p, happenings[..n]);
      LinkedOverRuns(rows, owned, before);
      LinkedIdsAreUnique(Run(start, before));
    }
  }

  // ---------------------------------------------------------------- what still repairs a pod

  /** With two registrations of one connection, a reconciliation of either form and a lookup change the cache only. */
  lemma DuplicatesBlock(w: World, o: Outcome, e: Event)
    requires !IdsUnique(w.datasources) && (e.Synchronize? || e.LookedUp?)
    ensures Handled(w, o, e) == w.(cache := Handled(w, o, e).cache)
  {
    if e.Synchronize? { BuildingOnlyCaches(w, e.remote); }
  }

  /** An addition without update removes no registration. */
  lemma AdditionsKeepDuplicates(w: World, o: Outcome, id: Id)
    requires !IdsUnique(w.datasources)
    ensures !IdsUnique(Handled(w, o, ConnectionAdded(id, false)).datasources)
  {
    var v := Handled(w, o, ConnectionAdded(id, false));
    var m, n :| m in w.datasources && n in w.datasources && w.datasources[m] == w.datasources[n] && m != n;
    assert m in v.datasources && n in v.datasources && v.datasources[m] == w.datasources[m] && v.datasources[n] == w.datasources[n];
  }

  /** What makes registrations unique again is an event about one connection, a deletion or an update, that finds a
      name of it in the cache or in its row. */
  lemma OnlyEventsRepair(w: World, o: Outcome, e: Event)
    requires !IdsUnique(w.datasources) && IdsUnique(Handled(w, o, e).datasources)
    ensures (e.ConnectionDeleted? && RememberedId(w, e.id))
            || (e.ConnectionAdded? && e.update && e.id !in w.owned && (RememberedId(w, e.id) || (e.id !in w.cache && e.id in w.rows)))
  {
    match e
    case ConnectionAdded(id, update) =>
      if !update {
        AdditionsKeepDuplicates(w, o, id);
      } else if id in w.owned || !(RememberedId(w, id) || (id !in w.cache && id in w.rows)) {
        NamelessUpdatesKeepDuplicates(w, o, id);
      }
    case ConnectionDeleted(id) =>
    case Synchronize(_, _) => DuplicatesBlock(w, o, e);
    case LookedUp(_) => DuplicatesBlock(w, o, e);
  }

  lemma NamelessUpdatesKeepDuplicates(w: World, o: Outcome, id: Id)
    requires !IdsUnique(w.datasources)
    requires id in w.owned || !(RememberedId(w, id) || (id !in w.cache && id in w.rows))
    ensures !IdsUnique(Handled(w, o, ConnectionAdded(id, true)).datasources)
  {
    var v := Handled(w, o, ConnectionAdded(id, true));
    var m, n :| m in w.datasources && n in w.datasources && w.datasources[m] == w.datasources[n] && m != n;
    assert m in v.datasources && n in v.datasources && v.datasources[m] == w.datasources[m] && v.datasources[n] == w.datasources[n];
  }

  /** A pod whose schedule has stopped over two registrations.  A deletion event has made them unique again, and
      reconnects reconcile, but the scheduled task never runs again. */
  lemma StoppedPod(id: Id, was: string, now: string) returns (happenings: seq<(Happening, Outcome)>)
    requires was != now
    ensures var p := Life(Born(map[], {}), happenings);
            && p.stopped && p.world == World(map[], map[was := id], map[], {})
            && (forall o, remote, connected :: After(p, o, Due(remote, connected)) == p)
  {
    var nothing := Outcome(map[], {}, {});
    var events := TwoRegistrations(id, was, now);
    happenings := Live(events);
    LiveRuns(events);
    var p := Life(Born(map[], {}), happenings);
    RegisteredTwice(p.world, id, was, now);
    happenings := Happens(happenings, Due([id], true), nothing);
    StaysTwice(p.world, nothing, id);
    happenings := Happens(happenings, Other(ConnectionDeleted(id)), nothing);
    LosesOne(p.world, nothing, id, was, now);
  }

  lemma RegisteredTwice(w: World, id: Id, was: string, now: string)
    requires was != now && w.datasources == map[was := id, now := id]
    ensures !IdsUnique(w.datasources)
  {
    assert w.datasources[was] == w.datasources[now];
  }

  /** The exception leaves everything as it was. */
  lemma StaysTwice(w: World, o: Outcome, id: Id)
    requires !IdsUnique(w.datasources) && id in w.cache
    ensures Handled(w, o, Synchronize([id], true)) == w
  {
    DuplicatesBlock(w, o, Synchronize([id], true));
    BuildingOnlyCaches(w, [id]);
    var v := Handled(w, o, Synchronize([id], true));
    assert v.cache.Keys == w.cache.Keys && forall i | i in w.cache :: v.cache[i] == w.cache[i];
    assert v.cache == w.cache;
  }

  lemma LosesOne(w: World, o: Outcome, id: Id, was: string, now: string)
    requires was != now && w == World(map[id := now], map[was := id, now := id], map[id := Some(now)], {}) && o == Outcome(map[], {}, {})
    ensures Handled(w, o, ConnectionDeleted(id)) == World(map[], map[was := id], map[], {})
  {
    var v := Handled(w, o, ConnectionDeleted(id));
    assert v.rows == map[] && v.datasources == map[was := id] && v.cache == map[];
  }

  lemma Happens(before: seq<(Happening, Outcome)>, h: Happening, o: Outcome) returns (happenings: seq<(Happening, Outcome)>)
    ensures Life(Born(map[], {}), happenings) == After(Life(Born(map[], {}), before), o, h)
  {
    happenings := before + [(h, o)];
    assert happenings[..|before|] == before;
  }

  /** A run of events as what happens to a pod apart from its schedule. */
  function Live(events: seq<(Event, Outcome)>): (happenings: seq<(Happening, Outcome)>)
    ensures |happenings| == |events|
  {
    if events == [] then [] else Live(events[..|events| - 1]) + [(Other(events[|events| - 1].0), events[|events| - 1].1)]
  }

  lemma {:induction false} LiveRuns(events: seq<(Event, Outcome)>)
    ensures Life(Born(map[], {}), Live(events)) == Pod(Run(Start(map[], {}), events), false)
  {
    if events != [] {
      var n := |events| - 1;
      LiveRuns(events[..n]);
      assert Live(events)[..n] == Live(events[..n]);
    }
  }
}
