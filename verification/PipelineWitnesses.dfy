/** Coherence is lost in these ways, each shown by a run that ends with nothing left to do. */
module PipelineWitnesses {
  import opened Prelude
  import opened VdbNames
  import opened SourcePipeline
  import opened PipelineTheorems

  /** The whole state, apart from what the master imports. */
  ghost predicate Is(s: State, rows: map<Id, Row>, registered: map<string, Id>, vdbs: map<string, Vdb>, queue: seq<Task>) {
    && s.rows == rows && s.registered == registered && s.queue == queue
    && (forall v | v in vdbs :: v in s.vdbs && s.vdbs[v] == vdbs[v] && !IsService(v) && v != PREVIEW_VDB)
    && (forall v | v in s.vdbs :: if v == PREVIEW_VDB then s.vdbs[v].MasterVdb? else v in vdbs)
  }

  lemma Extend(actions: seq<Action>, a: Action) returns (longer: seq<Action>, s: State)
    ensures s == Run(Init, longer) == Step(Run(Init, actions), a)
  {
    longer := actions + [a];
    s := Run(Init, longer);
    assert longer[..|longer| - 1] == actions;
  }

  lemma HandledAtOnce(s: State, op: Op)
    requires s.queue == []
    ensures Step(Step(s, Arrive([op])), RunTask(BecomesActive)) == RanOp(s, op)
  {
    var s1 := Step(s, Arrive([op]));
    assert s1.queue == [Connections([op])] && Rest(s1.queue) == [];
    assert s1.(queue := []) == s;
  }

  /** An event arrives and is handled. */
  lemma Handle(actions: seq<Action>, op: Op) returns (longer: seq<Action>, s: State)
    requires Run(Init, actions).queue == []
    ensures s == Run(Init, longer) == RanOp(Run(Init, actions), op)
  {
    HandledAtOnce(Run(Init, actions), op);
    longer, s := Extend(actions, Arrive([op]));
    longer, s := Extend(longer, RunTask(BecomesActive));
  }

  lemma AddsNew(s: State, rows: map<Id, Row>, registered: map<string, Id>, vdbs: map<string, Vdb>, id: Id, name: string)
    requires Is(s, rows, registered, vdbs, []) && id !in rows && name !in registered && LoadName(name) !in vdbs
    requires forall i | i in rows :: rows[i].name != name
    ensures Is(RanOp(s, Add(id, None, false, Some(name), true, Some(BecomesActive))),
               rows[id := Row(name, None)], registered[name := id], vdbs[LoadName(name) := LoadVdb(name, id)], [])
  {
    assert name !in RowNames(s);
    var (s1, named) := Prepared(s, id, None, false, Some(name), true);
    assert named == Some(name) && Is(s1, rows[id := Row(name, None)], registered[name := id], vdbs, []);
    LoadStarts(s1, rows[id := Row(name, None)], registered[name := id], vdbs, id, name, MakeLive);
  }

  /** A deployment that has to load, or is told to. */
  lemma LoadStarts(s: State, rows: map<Id, Row>, registered: map<string, Id>, vdbs: map<string, Vdb>, id: Id, name: string, mode: Mode)
    requires Is(s, rows, registered, vdbs, []) && name in registered && registered[name] == id && id in rows
    requires LoadName(name) !in vdbs && (mode.RefreshDdl? || (mode.MakeLive? && rows[id].ddl == None))
    ensures Is(DeploySource(s, name, mode, BecomesActive), rows, registered, vdbs[LoadName(name) := LoadVdb(name, id)], [])
  {
    NoNameClash(name, name);
  }

  /** A load ends with a new schema. */
  lemma Finishes(s: State, rows: map<Id, Row>, registered: map<string, Id>, vdbs: map<string, Vdb>, id: Id, name: string, ddl: string)
    requires Is(s, rows, registered, vdbs, []) && id in rows && rows[id].ddl != Some(ddl)
    requires LoadName(name) in vdbs && vdbs[LoadName(name)] == LoadVdb(name, id)
    ensures Is(Step(s, FinishLoad(name, Loaded(ddl), false)),
               rows[id := rows[id].(ddl := Some(ddl))], registered, vdbs - {LoadName(name)}, [Replace(name)])
  {
    NoNameClash(name, name);
  }

  lemma DeploysAgain(s: State, rows: map<Id, Row>, registered: map<string, Id>, vdbs: map<string, Vdb>, id: Id, name: string, ddl: string)
    requires Is(s, rows, registered, vdbs, []) && name in registered && registered[name] == id
    requires id in rows && rows[id].ddl == Some(ddl) && !IsFailedDdl(ddl)
    ensures Is(DeploySource(s, name, ReplaceDdl, BecomesActive),
               rows, registered, vdbs[ConnName(name) := SourceVdb(true, name, id, ddl)], [Refresh])
  {
    NoNameClash(name, name);
  }

  lemma Replaces(s: State, rows: map<Id, Row>, registered: map<string, Id>, vdbs: map<string, Vdb>, id: Id, name: string, ddl: string)
    requires Is(s, rows, registered, vdbs, [Replace(name)]) && name in registered && registered[name] == id
    requires id in rows && rows[id].ddl == Some(ddl) && !IsFailedDdl(ddl)
    ensures Is(Step(Step(s, RunTask(BecomesActive)), RunTask(BecomesActive)),
               rows, registered, vdbs[ConnName(name) := SourceVdb(true, name, id, ddl)], [])
  {
    assert Rest(s.queue) == [];
    DeploysAgain(s.(queue := []), rows, registered, vdbs, id, name, ddl);
    Refreshes(Step(s, RunTask(BecomesActive)), rows, registered, vdbs[ConnName(name) := SourceVdb(true, name, id, ddl)]);
  }

  lemma Refreshes(s: State, rows: map<Id, Row>, registered: map<string, Id>, vdbs: map<string, Vdb>)
    requires Is(s, rows, registered, vdbs, [Refresh])
    ensures Is(Step(s, RunTask(BecomesActive)), rows, registered, vdbs, [])
  {
    NoNameClash("", "");
  }

  /** A replacement for a data source that is not registered. */
  lemma Misses(s: State, rows: map<Id, Row>, registered: map<string, Id>, vdbs: map<string, Vdb>, name: string)
    requires Is(s, rows, registered, vdbs, [Replace(name)]) && name !in registered
    ensures Is(Step(s, RunTask(BecomesActive)), rows, registered, vdbs, [])
  {}

  /** A removal, and the deletion it queues. */
  lemma Removes(s: State, rows: map<Id, Row>, registered: map<string, Id>, vdbs: map<string, Vdb>, id: Id, held: Option<string>)
    requires Is(s, rows, registered, vdbs, []) && id in rows
    ensures Is(RanOp(s, Remove(id, held, false)), rows - {id},
               if held.Some? then registered - {held.value} else registered, vdbs, [Delete(Printed(held))])
  {}

  lemma Deletes(s: State, rows: map<Id, Row>, registered: map<string, Id>, vdbs: map<string, Vdb>, name: string)
    requires Is(s, rows, registered, vdbs, [Delete(name)]) && ConnName(name) !in vdbs
    ensures Is(Step(s, RunTask(BecomesActive)), rows, registered, vdbs, [])
  {
    NoNameClash(name, name);
  }

  lemma IsQuiet(s: State, rows: map<Id, Row>, registered: map<string, Id>, vdbs: map<string, Vdb>)
    requires Is(s, rows, registered, vdbs, []) && forall v | v in vdbs :: vdbs[v].SourceVdb?
    ensures Outstanding(s) == 0
  {
    assert Loads(s) == {};
  }

  /** A load ends, and the database is deployed. */
  lemma LoadsAndDeploys(before: seq<Action>, rows: map<Id, Row>, registered: map<string, Id>, vdbs: map<string, Vdb>,
                        id: Id, name: string, ddl: string)
    returns (actions: seq<Action>)
    requires Is(Run(Init, before), rows, registered, vdbs, []) && id in rows && rows[id].ddl != Some(ddl) && !IsFailedDdl(ddl)
    requires LoadName(name) in vdbs && vdbs[LoadName(name)] == LoadVdb(name, id)
    requires name in registered && registered[name] == id
    ensures Is(Run(Init, actions), rows[id := rows[id].(ddl := Some(ddl))], registered,
               (vdbs - {LoadName(name)})[ConnName(name) := SourceVdb(true, name, id, ddl)], [])
  {
    var s: State;
    Finishes(Run(Init, before), rows, registered, vdbs, id, name, ddl);
    actions, s := Extend(before, FinishLoad(name, Loaded(ddl), false));
    Replaces(s, rows[id := rows[id].(ddl := Some(ddl))], registered, vdbs - {LoadName(name)}, id, name, ddl);
    actions, s := Extend(actions, RunTask(BecomesActive));
    actions, s := Extend(actions, RunTask(BecomesActive));
  }

  function OneRow(id: Id, name: string, ddl: string): map<Id, Row> { map[id := Row(name, Some(ddl))] }

  function OneSource(id: Id, name: string): map<string, Id> { map[name := id] }

  function OneDatabase(id: Id, name: string, ddl: string): map<string, Vdb> {
    map[ConnName(name) := SourceVdb(true, name, id, ddl)]
  }

  /** What is left when the source database of a connection is stale for good. */
  ghost predicate StaleForGood(s: State, id: Id, name: string, row: string, deployed: string) {
    && Outstanding(s) == 0 && s.rows == OneRow(id, name, row) && s.registered == OneSource(id, name)
    && ConnName(name) in s.vdbs && s.vdbs[ConnName(name)] == SourceVdb(true, name, id, deployed)
  }

  /** One connection is deployed, and nothing left to do. */
  lemma OneConnection(id: Id, name: string, ddl: string) returns (actions: seq<Action>)
    requires !IsFailedDdl(ddl)
    ensures Is(Run(Init, actions), OneRow(id, name, ddl), OneSource(id, name), OneDatabase(id, name, ddl), [])
  {
    var rows: map<Id, Row>, registered: map<string, Id>, vdbs: map<string, Vdb> := map[], map[], map[];
    var s: State;
    assert Is(Run(Init, []), rows, registered, vdbs, []);
    AddsNew(Run(Init, []), rows, registered, vdbs, id, name);
    actions, s := Handle([], Add(id, None, false, Some(name), true, Some(BecomesActive)));
    var loading := vdbs[LoadName(name) := LoadVdb(name, id)];
    actions := LoadsAndDeploys(actions, rows[id := Row(name, None)], registered[name := id], loading, id, name, ddl);
    assert rows[id := Row(name, None)][id := Row(name, Some(ddl))] == OneRow(id, name, ddl) && registered[name := id] == OneSource(id, name);
    assert (loading - {LoadName(name)})[ConnName(name) := SourceVdb(true, name, id, ddl)] == OneDatabase(id, name, ddl);
  }

  // ---------------------------------------------------------------- a failed update

  /** An update that cannot register the data source again. */
  lemma FailsToUpdate(s: State, rows: map<Id, Row>, registered: map<string, Id>, vdbs: map<string, Vdb>, id: Id, name: string)
    requires Is(s, rows, registered, vdbs, [])
    ensures Is(RanOp(s, Add(id, Some(name), true, None, false, None)), rows, registered - {name}, vdbs, [])
  {}

  /** One that can. */
  lemma Updates(s: State, rows: map<Id, Row>, registered: map<string, Id>, vdbs: map<string, Vdb>, id: Id, name: string)
    requires Is(s, rows, registered, vdbs, []) && id in rows && LoadName(name) !in vdbs
    ensures Is(RanOp(s, Add(id, Some(name), true, None, true, Some(BecomesActive))),
               rows, (registered - {name})[name := id], vdbs[LoadName(name) := LoadVdb(name, id)], [])
  {
    var (s1, named) := Prepared(s, id, Some(name), true, None, true);
    assert named == Some(name) && Is(s1, rows, (registered - {name})[name := id], vdbs, []);
    LoadStarts(s1, rows, (registered - {name})[name := id], vdbs, id, name, RefreshDdl);
  }

  /** A load that finds the row up to date. */
  lemma FinishesUnchanged(s: State, rows: map<Id, Row>, registered: map<string, Id>, vdbs: map<string, Vdb>, id: Id, name: string, ddl: string)
    requires Is(s, rows, registered, vdbs, []) && id in rows && rows[id].ddl == Some(ddl)
    requires LoadName(name) in vdbs && vdbs[LoadName(name)] == LoadVdb(name, id)
    ensures Is(Step(s, FinishLoad(name, Loaded(ddl), false)), rows, registered, vdbs - {LoadName(name)}, [])
  {
    NoNameClash(name, name);
  }

  /** A reload is in flight when an update drops the data source and fails to register it again.  The reload then
      changes the row, and its replacement finds no data source.  A later update that succeeds does not help: its
      own reload finds the row up to date. */
  lemma FailedUpdateLosesReplacement(id: Id, name: string, x: string, y: string) returns (actions: seq<Action>)
    requires x != y && !IsFailedDdl(x)
    ensures StaleForGood(Run(Init, actions), id, name, y, x)
  {
    actions := OneConnection(id, name, x);
    actions := UpdateFailsDuringReload(actions, id, name, x, y);
    actions := LaterUpdateDoesNotHelp(actions, id, name, x, y);
  }

  function Reloading(id: Id, name: string, ddl: string): map<string, Vdb> {
    OneDatabase(id, name, ddl)[LoadName(name) := LoadVdb(name, id)]
  }

  lemma ReloadIsOver(id: Id, name: string, ddl: string)
    ensures LoadName(name) !in OneDatabase(id, name, ddl) && LoadName(name) in Reloading(id, name, ddl)
    ensures Reloading(id, name, ddl) - {LoadName(name)} == OneDatabase(id, name, ddl)
  {
    NoNameClash(name, name);
  }

  lemma UpdateFailsDuringReload(before: seq<Action>, id: Id, name: string, x: string, y: string) returns (actions: seq<Action>)
    requires x != y && Is(Run(Init, before), OneRow(id, name, x), OneSource(id, name), OneDatabase(id, name, x), [])
    ensures Is(Run(Init, actions), OneRow(id, name, y), map[], OneDatabase(id, name, x), [])
  {
    var s: State;
    var none: map<string, Id> := map[];
    ReloadIsOver(id, name, x);
    LoadStarts(Run(Init, before), OneRow(id, name, x), OneSource(id, name), OneDatabase(id, name, x), id, name, RefreshDdl);
    actions, s := Extend(before, Deploy(name, RefreshDdl, BecomesActive));
    FailsToUpdate(s, OneRow(id, name, x), OneSource(id, name), Reloading(id, name, x), id, name);
    actions, s := Handle(actions, Add(id, Some(name), true, None, false, None));
    assert OneSource(id, name) - {name} == none;
    actions := ReplacementMisses(actions, none, Reloading(id, name, x), id, name, name, x, y);
  }

  /** A load ends with a change of the row, and the replacement it asks for finds no data source. */
  lemma ReplacementMisses(before: seq<Action>, registered: map<string, Id>, vdbs: map<string, Vdb>,
                          id: Id, was: string, now: string, x: string, y: string)
    returns (actions: seq<Action>)
    requires x != y && Is(Run(Init, before), OneRow(id, now, x), registered, vdbs, []) && was !in registered
    requires LoadName(was) in vdbs && vdbs[LoadName(was)] == LoadVdb(was, id)
    ensures Is(Run(Init, actions), OneRow(id, now, y), registered, vdbs - {LoadName(was)}, [])
  {
    var s: State;
    Finishes(Run(Init, before), OneRow(id, now, x), registered, vdbs, id, was, y);
    actions, s := Extend(before, FinishLoad(was, Loaded(y), false));
    assert OneRow(id, now, x)[id := Row(now, Some(y))] == OneRow(id, now, y);
    Misses(s, OneRow(id, now, y), registered, vdbs - {LoadName(was)}, was);
    actions, s := Extend(actions, RunTask(BecomesActive));
  }

  lemma LaterUpdateDoesNotHelp(before: seq<Action>, id: Id, name: string, x: string, y: string) returns (actions: seq<Action>)
    requires Is(Run(Init, before), OneRow(id, name, y), map[], OneDatabase(id, name, x), [])
    ensures StaleForGood(Run(Init, actions), id, name, y, x)
  {
    var s: State;
    var none: map<string, Id> := map[];
    ReloadIsOver(id, name, x);
    assert (none - {name})[name := id] == OneSource(id, name);
    Updates(Run(Init, before), OneRow(id, name, y), none, OneDatabase(id, name, x), id, name);
    actions, s := Handle(before, Add(id, Some(name), true, None, true, Some(BecomesActive)));
    FinishesUnchanged(s, OneRow(id, name, y), OneSource(id, name), Reloading(id, name, x), id, name, y);
    actions, s := Extend(actions, FinishLoad(name, Loaded(y), false));
    IsStale(s, id, name, y, x);
  }

  lemma IsStale(s: State, id: Id, name: string, row: string, deployed: string)
    requires Is(s, OneRow(id, name, row), OneSource(id, name), OneDatabase(id, name, deployed), [])
    ensures StaleForGood(s, id, name, row, deployed)
  {
    IsQuiet(s, OneRow(id, name, row), OneSource(id, name), OneDatabase(id, name, deployed));
  }

  // ---------------------------------------------------------------- a removal without a name

  /** A removal through an object without a name deletes the row, but neither the database nor the registration. */
  lemma NamelessRemovalLeavesDatabase(id: Id, name: string, ddl: string) returns (actions: seq<Action>)
    requires name != "null" && !IsFailedDdl(ddl)
    ensures var s := Run(Init, actions);
            && Outstanding(s) == 0 && s.rows == map[] && s.registered == OneSource(id, name)
            && ConnName(name) in s.vdbs && s.vdbs[ConnName(name)] == SourceVdb(true, name, id, ddl)
  {
    var s: State;
    var conn := OneDatabase(id, name, ddl);
    actions := OneConnection(id, name, ddl);
    Removes(Run(Init, actions), OneRow(id, name, ddl), OneSource(id, name), conn, id, None);
    actions, s := Handle(actions, Remove(id, None, false));
    assert OneRow(id, name, ddl) - {id} == map[];
    NoNameClash(Printed(None), name);
    Deletes(s, map[], OneSource(id, name), conn, Printed(None));
    actions, s := Extend(actions, RunTask(BecomesActive));
    IsQuiet(s, map[], OneSource(id, name), conn);
  }

  // ---------------------------------------------------------------- another name while loading

  /** A connection that is still loading is deleted. */
  lemma DeletedWhileLoading(id: Id, name: string) returns (actions: seq<Action>)
    ensures Is(Run(Init, actions), map[], map[], map[LoadName(name) := LoadVdb(name, id)], [])
  {
    var rows: map<Id, Row>, registered: map<string, Id>, vdbs: map<string, Vdb> := map[], map[], map[];
    var s: State;
    assert Is(Run(Init, []), rows, registered, vdbs, []);
    AddsNew(Run(Init, []), rows, registered, vdbs, id, name);
    actions, s := Handle([], Add(id, None, false, Some(name), true, Some(BecomesActive)));
    var loading := vdbs[LoadName(name) := LoadVdb(name, id)];
    Removes(s, rows[id := Row(name, None)], registered[name := id], loading, id, Some(name));
    actions, s := Handle(actions, Remove(id, Some(name), false));
    assert rows[id := Row(name, None)] - {id} == rows && registered[name := id] - {name} == registered;
    NoNameClash(name, name);
    Deletes(s, rows, registered, loading, name);
    actions, s := Extend(actions, RunTask(BecomesActive));
    assert loading == map[LoadName(name) := LoadVdb(name, id)];
  }

  function OldLoad(id: Id, was: string): map<string, Vdb> { map[LoadName(was) := LoadVdb(was, id)] }

  /** It comes back under another name. */
  lemma BackUnderAnotherName(id: Id, was: string, now: string) returns (actions: seq<Action>)
    requires was != now
    ensures Is(Run(Init, actions), map[id := Row(now, None)], OneSource(id, now),
               OldLoad(id, was)[LoadName(now) := LoadVdb(now, id)], [])
  {
    var rows: map<Id, Row>, registered: map<string, Id>, s: State := map[], map[], Init;
    actions := DeletedWhileLoading(id, was);
    NoNameClash(now, was);
    AddsNew(Run(Init, actions), rows, registered, OldLoad(id, was), id, now);
    actions, s := Handle(actions, Add(id, None, false, Some(now), true, Some(BecomesActive)));
    assert rows[id := Row(now, None)] == map[id := Row(now, None)] && registered[now := id] == OneSource(id, now);
  }

  lemma DatabasesSwap(id: Id, was: string, now: string, ddl: string)
    requires was != now
    ensures (OldLoad(id, was)[LoadName(now) := LoadVdb(now, id)] - {LoadName(now)})[ConnName(now) := SourceVdb(true, now, id, ddl)]
            == OneDatabase(id, now, ddl)[LoadName(was) := LoadVdb(was, id)]
  {
    NoNameClash(now, was);
  }

  /** And is deployed under it, while the old load goes on. */
  lemma DeployedUnderAnotherName(id: Id, was: string, now: string, ddl: string) returns (actions: seq<Action>)
    requires was != now && !IsFailedDdl(ddl)
    ensures Is(Run(Init, actions), OneRow(id, now, ddl), OneSource(id, now),
               OneDatabase(id, now, ddl)[LoadName(was) := LoadVdb(was, id)], [])
  {
    actions := BackUnderAnotherName(id, was, now);
    var row: map<Id, Row> := map[id := Row(now, None)];
    actions := LoadsAndDeploys(actions, row, OneSource(id, now), OldLoad(id, was)[LoadName(now) := LoadVdb(now, id)], id, now, ddl);
    DatabasesSwap(id, was, now, ddl);
    assert row[id := Row(now, Some(ddl))] == OneRow(id, now, ddl);
  }

  lemma OldLoadIsOver(id: Id, was: string, now: string, ddl: string)
    ensures OneDatabase(id, now, ddl)[LoadName(was) := LoadVdb(was, id)] - {LoadName(was)} == OneDatabase(id, now, ddl)
  {
    NoNameClash(now, was);
  }

  /** The old load then changes the row, and asks for the replacement of the old name only. */
  lemma RenamedWhileLoading(id: Id, was: string, now: string, x: string, y: string) returns (actions: seq<Action>)
    requires was != now && x != y && !IsFailedDdl(x)
    ensures StaleForGood(Run(Init, actions), id, now, y, x)
  {
    actions := DeployedUnderAnotherName(id, was, now, x);
    var vdbs := OneDatabase(id, now, x)[LoadName(was) := LoadVdb(was, id)];
    actions := ReplacementMisses(actions, OneSource(id, now), vdbs, id, was, now, x, y);
    OldLoadIsOver(id, was, now, x);
    IsStale(Run(Init, actions), id, now, y, x);
  }
}
