/** The service that deploys source databases, in the form the program gives it: shared mutable maps and an
    executor queue, changed in place.  Each method is proved to take the step of the pipeline specification. */
module MetadataServices {
  import opened Prelude
  import opened VdbNames
  import opened SourcePipeline

  /** The active sources among the databases scanned so far. */
  ghost function ActiveIn(snapshot: map<string, Vdb>, done: set<string>): set<string> {
    set n | n in done && IsActiveConn(snapshot, n)
  }

  /** What is deployed once the scanned previews are gone. */
  ghost function KeptAfter(snapshot: map<string, Vdb>, done: set<string>): map<string, Vdb> {
    map n | n in snapshot && !(n in done && IsService(n)) :: snapshot[n]
  }

  lemma ActiveStep(snapshot: map<string, Vdb>, done: set<string>, name: string)
    ensures ActiveIn(snapshot, done + {name}) == ActiveIn(snapshot, done) + if IsActiveConn(snapshot, name) then {name} else {}
  {}

  lemma KeptStep(snapshot: map<string, Vdb>, done: set<string>, name: string)
    ensures IsService(name) ==> KeptAfter(snapshot, done + {name}) == KeptAfter(snapshot, done) - {name}
    ensures !IsService(name) ==> KeptAfter(snapshot, done + {name}) == KeptAfter(snapshot, done)
  {}

  lemma ScanEnds(snapshot: map<string, Vdb>)
    ensures ActiveIn(snapshot, snapshot.Keys) == ActiveConns(snapshot)
    ensures KeptAfter(snapshot, snapshot.Keys)[PREVIEW_VDB := MasterVdb(ActiveConns(snapshot))] == Refreshed(snapshot)
  {}

  class MetadataService {
    /** schema rows of the repository, by connection id */
    var rows: map<Id, Row>
    /** the server's data sources, by name */
    var datasources: map<string, Id>
    /** the server's deployed databases, by name */
    var vdbs: map<string, Vdb>
    /** tasks waiting for the single executor thread */
    var connectionExecutor: seq<Task>

    function View(): State
      reads this
    {
      State(rows, datasources, vdbs, connectionExecutor)
    }

    constructor ()
      ensures View() == Init
    {
      rows, datasources, connectionExecutor := map[], map[], [];
      vdbs := map[PREVIEW_VDB := MasterVdb({})];
    }

    method UndeployDynamicVdb(vdbName: string)
      modifies this`vdbs
      ensures vdbs == old(vdbs) - {vdbName}
    {
      if vdbName in vdbs {
        vdbs := vdbs - {vdbName};
      }
    }

    /** Deployment undeploys first, so an exception leaves the name free. */
    method DeployVdb(vdbName: string, vdb: Vdb, throws: bool)
      modifies this`vdbs
      ensures vdbs == if throws then old(vdbs) - {vdbName} else old(vdbs)[vdbName := vdb]
    {
      UndeployDynamicVdb(vdbName);
      if !throws {
        vdbs := vdbs[vdbName := vdb];
      }
    }

    method RefreshPreviewVdb()
      modifies this`vdbs
      ensures vdbs == Refreshed(old(vdbs))
    {
      var imports: set<string> := {};
      var snapshot := vdbs;
      var todo := snapshot.Keys;
      ghost var done: set<string> := {};
      while todo != {}
        invariant todo + done == snapshot.Keys
        invariant imports == ActiveIn(snapshot, done)
        invariant vdbs == KeptAfter(snapshot, done)
        decreases todo
      {
        var name :| name in todo;
        ClassesAreDisjoint(name);
        ActiveStep(snapshot, done, name);
        KeptStep(snapshot, done, name);
        todo, done := todo - {name}, done + {name};
        if IsConn(name) {
          if snapshot[name].SourceVdb? && snapshot[name].active {
            imports := imports + {name};
          }
        } else if IsService(name) {
          UndeployDynamicVdb(name);
        }
      }
      assert done == snapshot.Keys;
      ScanEnds(snapshot);
      DeployVdb(PREVIEW_VDB, MasterVdb(imports), false);
    }

    method DoDeploySourceVdb(name: string, id: Id, requested: Mode, outcome: Outcome)
      modifies this`vdbs, this`connectionExecutor
      ensures View() == DoDeploy(old(View()), name, id, requested, outcome)
    {
      var replace, mode := false, requested;
      if mode.ReplaceDdl? {
        replace, mode := true, ReuseDdl;
      }
      if id !in rows {
        return;
      }
      var vdbName := ConnName(name);
      if mode.ReuseDdl? && rows[id].ddl.None? {
        return;
      }
      var ddl := if mode.RefreshDdl? then None else rows[id].ddl;
      if ddl.None? {
        vdbName := vdbName + LOAD_SUFFIX;
      }
      if NothingToDeploy(vdbs, vdbName, ddl.None?, replace) {
        return;
      }
      if ddl.Some? && IsFailedDdl(ddl.value) {
        UndeployDynamicVdb(vdbName);
      } else {
        var vdb := if ddl.Some? then SourceVdb(outcome.BecomesActive?, name, id, ddl.value) else LoadVdb(name, id);
        DeployVdb(vdbName, vdb, outcome.Throws?);
      }
      if ddl.Some? {
        connectionExecutor := connectionExecutor + [Refresh];
      }
    }

    /** `found` is false when no data source of that name is registered, which the program reports as an
        exception. */
    method DeploySourceVdb(name: string, mode: Mode, outcome: Outcome) returns (found: bool)
      modifies this`vdbs, this`connectionExecutor
      ensures found == (name in datasources)
      ensures View() == DeploySource(old(View()), name, mode, outcome)
    {
      found := name in datasources;
      if found {
        DoDeploySourceVdb(name, datasources[name], mode, outcome);
      }
    }

    /** The life-cycle callback of a load database that has stopped loading. */
    method FinishedDeployment(source: string, result: LoadResult, conflict: bool)
      requires LoadName(source) in vdbs && vdbs[LoadName(source)].LoadVdb?
      modifies this`rows, this`vdbs, this`connectionExecutor
      ensures View() == FinishedLoad(old(View()), source, result, conflict)
    {
      var load := vdbs[LoadName(source)];
      var modelDdl := match result { case Loaded(schema) => schema case LoadFailed(error) => FAILED_DDL + error };
      UndeployDynamicVdb(LoadName(source));
      var updateSource := false;
      if conflict {
        updateSource := true;
      } else if load.id in rows {
        var row := rows[load.id];
        if row.ddl != Some(modelDdl) {
          rows := rows[load.id := row.(ddl := Some(modelDdl))];
          updateSource := true;
        }
      }
      if updateSource {
        connectionExecutor := connectionExecutor + [Replace(load.source)];
      }
    }

    method DeleteSchema(id: Id, name: string) returns (deleted: bool)
      modifies this`rows, this`connectionExecutor
      ensures deleted == (id in old(rows))
      ensures rows == old(rows) - {id}
      ensures connectionExecutor == old(connectionExecutor) + if deleted then [Delete(name)] else []
    {
      deleted := id in rows;
      if deleted {
        rows := rows - {id};
        connectionExecutor := connectionExecutor + [Delete(name)];
      }
    }

    /** The object at hand may know no name, and the deletion of its row may fail. */
    method DeleteConnection(id: Id, held: Option<string>, schemaFails: bool)
      modifies this`rows, this`datasources, this`connectionExecutor
      ensures View() == RemovedConnection(old(View()), id, held, schemaFails)
    {
      if !schemaFails {
        var deleted := DeleteSchema(id, Printed(held));
      }
      DeleteDataSource(held);
    }

    method DeleteDataSource(held: Option<string>)
      modifies this`datasources
      ensures datasources == if held.Some? then old(datasources) - {held.value} else old(datasources)
    {
      if held.Some? {
        datasources := datasources - {held.value};
      }
    }

    method RegisterDataSource(name: string, id: Id)
      modifies this`datasources
      ensures View() == Registered(old(View()), name, id, true)
    {
      if name !in datasources {
        datasources := datasources[name := id];
      }
    }

    /** Names the connection if the object at hand has no name, and registers it.  `name` is None when the program
        throws an exception: no naming attempt succeeds, or a new registration fails. */
    method CreateDataSource(id: Id, held: Option<string>, naming: Option<string>, registers: bool)
      returns (name: Option<string>)
      modifies this`rows, this`datasources
      ensures (View(), name) == Prepared(old(View()), id, held, false, naming, registers)
    {
      name := held;
      if name.None? {
        if id in rows {
          name := Some(rows[id].name);
        } else if naming.Some? && naming.value !in RowNames(View()) {
          rows := rows[id := Row(naming.value, None)];
          name := naming;
        } else {
          return;
        }
      }
      if name.value in datasources || registers {
        RegisterDataSource(name.value, id);
      } else {
        name := None;
      }
    }

    /** A connection is added or updated: an update drops the data source first. */
    method AddConnection(id: Id, held: Option<string>, update: bool, naming: Option<string>, registers: bool,
                         deploy: Option<Outcome>)
      modifies this
      ensures View() == AddedConnection(old(View()), id, held, update, naming, registers, deploy)
    {
      if update {
        DeleteDataSource(held);
      }
      assert View() == DroppedFirst(old(View()), held, update);
      var name := CreateDataSource(id, held, naming, registers);
      if name.Some? && deploy.Some? {
        var found := DeploySourceVdb(name.value, AddMode(update), deploy.value);
      }
    }

    /** The executor thread takes the next thing to do off the queue. */
    method RunNext(outcome: Outcome)
      modifies this
      ensures View() == RanTask(old(View()), outcome)
    {
      if connectionExecutor == [] {
        return;
      }
      var task := connectionExecutor[0];
      connectionExecutor := Rest(connectionExecutor);
      match task {
        case Refresh =>
          RefreshPreviewVdb();
        case Replace(source) =>
          var found := DeploySourceVdb(source, ReplaceDdl, outcome);
        case Delete(source) =>
          UndeployDynamicVdb(ConnName(source));
          RefreshPreviewVdb();
        case Connections(ops) =>
          if ops != [] {
            RunOp(ops[0]);
          }
      }
    }

    method RunOp(op: Op)
      modifies this
      ensures View() == RanOp(old(View()), op)
    {
      match op {
        case Add(id, held, update, naming, registers, deploy) =>
          AddConnection(id, held, update, naming, registers, deploy);
        case Remove(id, held, schemaFails) =>
          DeleteConnection(id, held, schemaFails);
      }
    }
  }
}
