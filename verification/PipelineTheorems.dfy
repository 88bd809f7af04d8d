/** Safety and progress of the source-database pipeline, over all its runs. */
module PipelineTheorems {
  import opened Prelude
  import opened VdbNames
  import opened SourcePipeline

  // ---------------------------------------------------------------- names

  lemma NoNameClash(x: string, y: string)
    ensures ConnName(x) == ConnName(y) ==> x == y
    ensures LoadName(x) == LoadName(y) ==> x == y
    ensures IsConn(ConnName(x)) && IsLoad(LoadName(x)) && IsService(PreviewName(x))
    ensures !IsService(ConnName(x)) && !IsService(LoadName(x)) && !IsConn(LoadName(x))
    ensures ConnName(x) != LoadName(y) && ConnName(x) != PreviewName(y) && LoadName(x) != PreviewName(y)
    ensures ConnName(x) != PREVIEW_VDB && LoadName(x) != PREVIEW_VDB && PreviewName(x) != PREVIEW_VDB
    ensures !IsService(PREVIEW_VDB) && !IsConn(PREVIEW_VDB)
    ensures !IsConn(PreviewName(x))
  {
    NamesAreInjective(x, y);
    KindsNeverCollide(x, y);
    ClassesAreDisjoint(ConnName(x));
    ClassesAreDisjoint(LoadName(x));
    ClassesAreDisjoint(PreviewName(x));
  }

  // ---------------------------------------------------------------- kinds

  lemma KindsAfterPut(vdbs: map<string, Vdb>, name: string, vdb: Vdb)
    requires KindsAgree(vdbs) && RightName(name, vdb) && (name == PREVIEW_VDB <==> vdb.MasterVdb?)
    ensures KindsAgree(vdbs[name := vdb])
  {}

  lemma KindsAfterDrop(vdbs: map<string, Vdb>, name: string)
    requires KindsAgree(vdbs) && name != PREVIEW_VDB
    ensures KindsAgree(vdbs - {name})
  {}

  lemma KindsAfterRefresh(vdbs: map<string, Vdb>)
    requires KindsAgree(vdbs)
    ensures KindsAgree(Refreshed(vdbs))
  {
    NoNameClash("", "");
    var kept := map name | name in vdbs && !IsService(name) :: vdbs[name];
    assert KindsAgree(kept);
  }

  lemma KindsSurviveDeploy(s: State, name: string, mode: Mode, outcome: Outcome)
    requires KindsAgree(s.vdbs)
    ensures KindsAgree(DeploySource(s, name, mode, outcome).vdbs)
  {
    NoNameClash(name, name);
    KindsAfterDrop(s.vdbs, ConnName(name));
    KindsAfterDrop(s.vdbs, LoadName(name));
  }

  lemma KindsSurviveOp(s: State, op: Op)
    requires KindsAgree(s.vdbs)
    ensures KindsAgree(RanOp(s, op).vdbs)
  {
    match op
    case Add(id, held, update, naming, registers, deploy) =>
      var (s1, name) := Prepared(s, id, held, update, naming, registers);
      if name.Some? && deploy.Some? { KindsSurviveDeploy(s1, name.value, AddMode(update), deploy.value); }
    case Remove(_, _, _) =>
  }

  lemma KindsSurviveTask(s: State, outcome: Outcome)
    requires KindsAgree(s.vdbs)
    ensures KindsAgree(RanTask(s, outcome).vdbs)
  {
    if s.queue != [] {
      var s1 := s.(queue := Rest(s.queue));
      match s.queue[0]
      case Refresh => KindsAfterRefresh(s.vdbs);
      case Replace(source) => KindsSurviveDeploy(s1, source, ReplaceDdl, outcome);
      case Delete(source) =>
        NoNameClash(source, source);
        KindsAfterDrop(s.vdbs, ConnName(source));
        KindsAfterRefresh(s.vdbs - {ConnName(source)});
      case Connections(ops) => if ops != [] { KindsSurviveOp(s1, ops[0]); }
    }
  }

  lemma KindsSurviveStep(s: State, a: Action)
    requires KindsAgree(s.vdbs)
    ensures KindsAgree(Step(s, a).vdbs)
  {
    match a
    case Arrive(_) =>
    case Deploy(name, mode, outcome) => KindsSurviveDeploy(s, name, mode, outcome);
    case FinishLoad(name, _, _) => NoNameClash(name, name); KindsAfterDrop(s.vdbs, LoadName(name));
    case DeployPreview(dv) => NoNameClash(dv, dv); KindsAfterPut(s.vdbs, PreviewName(dv), ServiceVdb);
    case RemovePreview(dv) => NoNameClash(dv, dv); KindsAfterDrop(s.vdbs, PreviewName(dv));
    case RunTask(outcome) => KindsSurviveTask(s, outcome);
  }

  // ---------------------------------------------------------------- rows

  /** A new row gets a name that no row has. */
  lemma NamingKeepsRowsDistinct(s: State, id: Id, held: Option<string>, naming: Option<string>)
    requires RowsDistinct(s)
    ensures RowsDistinct(NamedRow(s, id, held, naming).0)
  {
    if held.None? && id !in s.rows && naming.Some? && naming.value !in RowNames(s) {
      forall i | i in s.rows ensures s.rows[i].name != naming.value { assert s.rows[i].name in RowNames(s); }
    }
  }

  lemma DeploymentKeepsRows(s: State, name: string, mode: Mode, outcome: Outcome)
    ensures DeploySource(s, name, mode, outcome).rows == s.rows
    ensures DeploySource(s, name, mode, outcome).registered == s.registered
  {}

  lemma RowsSurviveOp(s: State, op: Op)
    requires RowsDistinct(s)
    ensures RowsDistinct(RanOp(s, op))
  {
    match op
    case Add(id, held, update, naming, registers, deploy) =>
      var (s1, name) := Prepared(s, id, held, update, naming, registers);
      NamingKeepsRowsDistinct(DroppedFirst(s, held, update), id, held, naming);
      assert s1.rows == NamedRow(DroppedFirst(s, held, update), id, held, naming).0.rows;
      if name.Some? && deploy.Some? { DeploymentKeepsRows(s1, name.value, AddMode(update), deploy.value); }
    case Remove(_, _, _) =>
  }

  lemma RowsSurviveStep(s: State, a: Action)
    requires RowsDistinct(s)
    ensures RowsDistinct(Step(s, a))
  {
    match a
    case Deploy(name, mode, outcome) => DeploymentKeepsRows(s, name, mode, outcome);
    case RunTask(outcome) =>
      if s.queue != [] {
        var s1 := s.(queue := Rest(s.queue));
        match s.queue[0]
        case Replace(source) => DeploymentKeepsRows(s1, source, ReplaceDdl, outcome);
        case Connections(ops) => if ops != [] { RowsSurviveOp(s1, ops[0]); }
        case _ =>
      }
    case _ =>
  }

  // ---------------------------------------------------------------- imports

  lemma ActiveAfterPut(vdbs: map<string, Vdb>, name: string, vdb: Vdb)
    requires !IsConn(name)
    ensures ActiveConns(vdbs[name := vdb]) == ActiveConns(vdbs)
    ensures ActiveConns(vdbs - {name}) == ActiveConns(vdbs)
  {
    forall n ensures IsActiveConn(vdbs[name := vdb], n) == IsActiveConn(vdbs, n) {}
    forall n ensures IsActiveConn(vdbs - {name}, n) == IsActiveConn(vdbs, n) {}
  }

  lemma ActiveAfterRefresh(vdbs: map<string, Vdb>, name: string)
    ensures IsActiveConn(Refreshed(vdbs), name) == IsActiveConn(vdbs, name)
  {
    ClassesAreDisjoint(name);
    assert name in Refreshed(vdbs) && name != PREVIEW_VDB ==> name in vdbs && Refreshed(vdbs)[name] == vdbs[name];
  }

  lemma RefreshMakesImportsCurrent(vdbs: map<string, Vdb>)
    ensures Refreshed(vdbs)[PREVIEW_VDB] == MasterVdb(ActiveConns(Refreshed(vdbs)))
  {
    forall n ensures n in ActiveConns(Refreshed(vdbs)) <==> n in ActiveConns(vdbs) { ActiveAfterRefresh(vdbs, n); }
  }

  lemma ImportsSurviveDeploy(s: State, name: string, mode: Mode, outcome: Outcome)
    requires ImportsCurrent(s)
    ensures ImportsCurrent(DeploySource(s, name, mode, outcome))
  {
    var s' := DeploySource(s, name, mode, outcome);
    NoNameClash(name, name);
    ActiveAfterPut(s.vdbs, LoadName(name), LoadVdb(name, if name in s.registered then s.registered[name] else ""));
    if s'.queue != s.queue { assert s'.queue[|s.queue|] == Refresh; }
  }

  /** Taking one thing off the queue leaves the others there. */
  lemma RestKeeps(queue: seq<Task>, t: Task)
    requires queue != [] && !t.Connections?
    ensures t in queue <==> t == queue[0] || t in Rest(queue)
  {
    assert queue == [queue[0]] + queue[1..];
  }

  lemma ImportsSurviveOp(s: State, op: Op)
    requires ImportsCurrent(s)
    ensures ImportsCurrent(RanOp(s, op))
  {
    match op
    case Add(id, held, update, naming, registers, deploy) =>
      var (s1, name) := Prepared(s, id, held, update, naming, registers);
      if name.Some? && deploy.Some? { ImportsSurviveDeploy(s1, name.value, AddMode(update), deploy.value); }
    case Remove(_, _, _) =>
      assert forall t | t in s.queue :: t in RanOp(s, op).queue;
  }

  lemma ImportsSurviveTask(s: State, outcome: Outcome)
    requires KindsAgree(s.vdbs) && ImportsCurrent(s)
    ensures ImportsCurrent(RanTask(s, outcome))
  {
    if s.queue != [] {
      var s1 := s.(queue := Rest(s.queue));
      RestKeeps(s.queue, Refresh);
      match s.queue[0]
      case Refresh => RefreshMakesImportsCurrent(s.vdbs);
      case Replace(source) => ImportsSurviveDeploy(s1, source, ReplaceDdl, outcome);
      case Delete(source) => RefreshMakesImportsCurrent(s.vdbs - {ConnName(source)});
      case Connections(ops) => if ops != [] { ImportsSurviveOp(s1, ops[0]); }
    }
  }

  lemma ImportsSurviveStep(s: State, a: Action)
    requires KindsAgree(s.vdbs) && ImportsCurrent(s)
    ensures ImportsCurrent(Step(s, a))
  {
    match a
    case Arrive(_) =>
    case Deploy(name, mode, outcome) => ImportsSurviveDeploy(s, name, mode, outcome);
    case FinishLoad(name, _, _) => NoNameClash(name, name); ActiveAfterPut(s.vdbs, LoadName(name), ServiceVdb);
    case DeployPreview(dv) => NoNameClash(dv, dv); ActiveAfterPut(s.vdbs, PreviewName(dv), ServiceVdb);
    case RemovePreview(dv) => NoNameClash(dv, dv); ActiveAfterPut(s.vdbs, PreviewName(dv), ServiceVdb);
    case RunTask(outcome) => ImportsSurviveTask(s, outcome);
  }

  /** What holds in every state of every run. */
  lemma SoundStep(s: State, a: Action)
    requires Sound(s)
    ensures Sound(Step(s, a))
  {
    RowsSurviveStep(s, a);
    KindsSurviveStep(s, a);
    ImportsSurviveStep(s, a);
  }

  lemma {:induction false} SoundOverRuns(actions: seq<Action>)
    ensures Sound(Run(Init, actions))
  {
    if actions == [] {
      NoNameClash("", "");
    } else {
      SoundOverRuns(actions[..|actions| - 1]);
      SoundStep(Run(Init, actions[..|actions| - 1]), actions[|actions| - 1]);
    }
  }

  // ---------------------------------------------------------------- coherence, step by step

  lemma CoherentLater(s: State, s': State, vdb: Vdb)
    requires vdb.SourceVdb? && CoherentVdb(s, vdb)
    requires forall t | t in s.queue && (t.Replace? || t.Delete?) :: t in s'.queue
    requires vdb.id in s.rows ==> (vdb.id in s'.rows && s'.rows[vdb.id] == s.rows[vdb.id])
    ensures CoherentVdb(s', vdb)
  {}

  /** The database under a name of the right class is that of the name's source. */
  lemma AtItsName(s: State, v: string)
    requires KindsAgree(s.vdbs) && v in s.vdbs && s.vdbs[v].SourceVdb?
    ensures v == ConnName(s.vdbs[v].source) && IsConn(v)
    ensures forall n :: v == ConnName(n) ==> n == s.vdbs[v].source
  {
    assert RightName(v, s.vdbs[v]);
    NoNameClash(s.vdbs[v].source, s.vdbs[v].source);
    forall n | v == ConnName(n) ensures n == s.vdbs[v].source { NoNameClash(n, s.vdbs[v].source); }
  }

  /** A deployment puts a new database in place exactly then. */
  predicate Puts(s: State, name: string, mode: Mode, outcome: Outcome) {
    && name in s.registered && s.registered[name] in s.rows
    && var row := s.rows[s.registered[name]];
    && !mode.RefreshDdl? && row.ddl.Some? && !IsFailedDdl(row.ddl.value) && !outcome.Throws?
    && !NothingToDeploy(s.vdbs, ConnName(name), false, mode.ReplaceDdl?)
  }

  lemma OthersAfterDeploy(s: State, name: string, mode: Mode, outcome: Outcome)
    ensures var s' := DeploySource(s, name, mode, outcome);
            && (s'.queue == s.queue || s'.queue == s.queue + [Refresh])
            && forall v | v in s'.vdbs && s'.vdbs[v].SourceVdb? && v != ConnName(name) :: v in s.vdbs && s'.vdbs[v] == s.vdbs[v]
  {
    NoNameClash(name, name);
  }

  lemma OwnAfterDeploy(s: State, name: string, mode: Mode, outcome: Outcome)
    ensures var s' := DeploySource(s, name, mode, outcome);
            if Puts(s, name, mode, outcome) then
              var id := s.registered[name];
              ConnName(name) in s'.vdbs
              && s'.vdbs[ConnName(name)] == SourceVdb(outcome.BecomesActive?, name, id, s.rows[id].ddl.value)
            else
              ConnName(name) in s'.vdbs && s'.vdbs[ConnName(name)].SourceVdb? ==>
                ConnName(name) in s.vdbs && s'.vdbs[ConnName(name)] == s.vdbs[ConnName(name)]
  {
    NoNameClash(name, name);
  }

  /** A deployment leaves rows and registrations alone and touches no source database but its own. */
  lemma DeployEffect(s: State, name: string, mode: Mode, outcome: Outcome)
    ensures var s' := DeploySource(s, name, mode, outcome);
            && s'.rows == s.rows && s'.registered == s.registered
            && (s'.queue == s.queue || s'.queue == s.queue + [Refresh])
            && (forall v | v in s'.vdbs && s'.vdbs[v].SourceVdb? && v != ConnName(name) :: v in s.vdbs && s'.vdbs[v] == s.vdbs[v])
            && (if Puts(s, name, mode, outcome) then
                  var id := s.registered[name];
                  ConnName(name) in s'.vdbs
                  && s'.vdbs[ConnName(name)] == SourceVdb(outcome.BecomesActive?, name, id, s.rows[id].ddl.value)
                else
                  ConnName(name) in s'.vdbs && s'.vdbs[ConnName(name)].SourceVdb? ==>
                    ConnName(name) in s.vdbs && s'.vdbs[ConnName(name)] == s.vdbs[ConnName(name)])
  {
    DeploymentKeepsRows(s, name, mode, outcome);
    OthersAfterDeploy(s, name, mode, outcome);
    OwnAfterDeploy(s, name, mode, outcome);
  }

  lemma DeployIsExact(s: State, name: string, mode: Mode, outcome: Outcome)
    requires Coherent(s)
    ensures Coherent(DeploySource(s, name, mode, outcome)) <==> !HarmfulDeploy(s, name, mode, outcome)
  {
    var s' := DeploySource(s, name, mode, outcome);
    DeployEffect(s, name, mode, outcome);
    forall v | v in s'.vdbs && s'.vdbs[v].SourceVdb? && !(v == ConnName(name) && Puts(s, name, mode, outcome))
      ensures CoherentVdb(s', s'.vdbs[v])
    {
      CoherentLater(s, s', s.vdbs[v]);
    }
    if Puts(s, name, mode, outcome) {
      assert CoherentVdb(s', s'.vdbs[ConnName(name)]) <==> !HarmfulDeploy(s, name, mode, outcome);
    }
  }

  lemma LoadIsExact(s: State, name: string, result: LoadResult, conflict: bool)
    requires Sound(s) && Coherent(s)
    ensures Coherent(FinishedLoad(s, name, result, conflict)) <==> !HarmfulLoad(s, name, result, conflict)
  {
    var s' := FinishedLoad(s, name, result, conflict);
    if LoadName(name) in s.vdbs && s.vdbs[LoadName(name)].LoadVdb? {
      var load := s.vdbs[LoadName(name)];
      assert forall t | t in s.queue :: t in s'.queue;
      forall v | v in s'.vdbs && s'.vdbs[v].SourceVdb? ensures v in s.vdbs && s'.vdbs[v] == s.vdbs[v] {}
      if !conflict && load.id in s.rows && s.rows[load.id].ddl != Some(ResultDdl(result)) {
        assert s'.queue == s.queue + [Replace(load.source)];
        forall v | v in s'.vdbs && s'.vdbs[v].SourceVdb?
          ensures CoherentVdb(s', s'.vdbs[v]) <==>
                  !(HarmfulLoad(s, name, result, conflict) && v == ConnName(s.rows[load.id].name))
        {
          LoadChangesOne(s, name, result, v);
        }
        if HarmfulLoad(s, name, result, conflict) {
          var v := ConnName(s.rows[load.id].name);
          NoNameClash(s.rows[load.id].name, name);
          assert v in s'.vdbs && s'.vdbs[v].SourceVdb?;
        }
      } else {
        forall v | v in s'.vdbs && s'.vdbs[v].SourceVdb? ensures CoherentVdb(s', s'.vdbs[v]) {
          CoherentLater(s, s', s.vdbs[v]);
        }
      }
    }
  }

  lemma LoadChangesOne(s: State, name: string, result: LoadResult, v: string)
    requires Sound(s) && Coherent(s) && v in s.vdbs && s.vdbs[v].SourceVdb?
    requires LoadName(name) in s.vdbs && s.vdbs[LoadName(name)].LoadVdb?
    requires var load := s.vdbs[LoadName(name)]; load.id in s.rows && s.rows[load.id].ddl != Some(ResultDdl(result))
    ensures CoherentVdb(FinishedLoad(s, name, result, false), s.vdbs[v]) <==>
            !(HarmfulLoad(s, name, result, false) && v == ConnName(s.rows[s.vdbs[LoadName(name)].id].name))
  {
    var s' := FinishedLoad(s, name, result, false);
    var load, vdb := s.vdbs[LoadName(name)], s.vdbs[v];
    AtItsName(s, v);
    assert s'.queue == s.queue + [Replace(load.source)];
    assert CoherentVdb(s, vdb);
    if vdb.id != load.id { CoherentLater(s, s', vdb); }
  }

  lemma RemovalIsExact(s: State, id: Id, held: Option<string>, schemaFails: bool)
    requires Sound(s) && Coherent(s)
    ensures Coherent(RemovedConnection(s, id, held, schemaFails)) <==> !HarmfulRemoval(s, id, held, schemaFails)
  {
    var s' := RemovedConnection(s, id, held, schemaFails);
    assert s'.vdbs == s.vdbs && forall t | t in s.queue :: t in s'.queue;
    if !schemaFails && id in s.rows {
      assert s'.queue == s.queue + [Delete(Printed(held))];
      forall v | v in s.vdbs && s.vdbs[v].SourceVdb?
        ensures CoherentVdb(s', s.vdbs[v]) <==>
                !(HarmfulRemoval(s, id, held, schemaFails) && v == ConnName(s.rows[id].name))
      {
        AtItsName(s, v);
        assert CoherentVdb(s, s.vdbs[v]);
        if s.vdbs[v].id != id { CoherentLater(s, s', s.vdbs[v]); }
      }
    } else {
      forall v | v in s.vdbs && s.vdbs[v].SourceVdb? ensures CoherentVdb(s', s.vdbs[v]) { CoherentLater(s, s', s.vdbs[v]); }
    }
  }

  lemma PreparationKeepsCoherence(s: State, id: Id, held: Option<string>, update: bool, naming: Option<string>, registers: bool)
    requires Coherent(s)
    ensures Coherent(Prepared(s, id, held, update, naming, registers).0)
  {
    var s' := Prepared(s, id, held, update, naming, registers).0;
    forall v | v in s'.vdbs && s'.vdbs[v].SourceVdb? ensures CoherentVdb(s', s'.vdbs[v]) { CoherentLater(s, s', s.vdbs[v]); }
  }

  lemma OpIsExact(s: State, op: Op)
    requires Sound(s) && Coherent(s)
    ensures Coherent(RanOp(s, op)) <==> !HarmfulOp(s, op)
  {
    match op
    case Add(id, held, update, naming, registers, deploy) =>
      var (s1, name) := Prepared(s, id, held, update, naming, registers);
      PreparationKeepsCoherence(s, id, held, update, naming, registers);
      if name.Some? && deploy.Some? { DeployIsExact(s1, name.value, AddMode(update), deploy.value); }
    case Remove(id, held, schemaFails) => RemovalIsExact(s, id, held, schemaFails);
  }

  lemma ReplacementIsExact(s: State, outcome: Outcome)
    requires Sound(s) && Coherent(s) && s.queue != [] && s.queue[0].Replace?
    ensures Coherent(RanTask(s, outcome)) <==> !HarmfulReplace(s, s.queue[0].source, s.queue[1..], outcome)
  {
    var source := s.queue[0].source;
    var s1 := s.(queue := s.queue[1..]);
    var s' := DeploySource(s1, source, ReplaceDdl, outcome);
    assert s' == RanTask(s, outcome);
    assert s.queue == [Replace(source)] + s1.queue;
    DeployEffect(s1, source, ReplaceDdl, outcome);
    forall v | v in s'.vdbs && s'.vdbs[v].SourceVdb? && v != ConnName(source) ensures CoherentVdb(s', s'.vdbs[v]) {
      AtItsName(s, v);
      var vdb := s.vdbs[v];
      assert CoherentVdb(s, vdb);
      assert CoherentVdb(s1, vdb);
      CoherentLater(s1, s', vdb);
    }
    var v := ConnName(source);
    if v in s'.vdbs && s'.vdbs[v].SourceVdb? {
      ReplacedDatabase(s, outcome);
    } else {
      ReplacedAway(s, outcome);
    }
  }

  /** What a replacement leaves under its source's name is coherent exactly when it is not harmful. */
  lemma ReplacedDatabase(s: State, outcome: Outcome)
    requires Sound(s) && Coherent(s) && s.queue != [] && s.queue[0].Replace?
    requires var v := ConnName(s.queue[0].source); v in RanTask(s, outcome).vdbs && RanTask(s, outcome).vdbs[v].SourceVdb?
    ensures var s' := RanTask(s, outcome);
            CoherentVdb(s', s'.vdbs[ConnName(s.queue[0].source)]) <==>
            !HarmfulReplace(s, s.queue[0].source, s.queue[1..], outcome)
  {
    var source := s.queue[0].source;
    var v := ConnName(source);
    var s1 := s.(queue := s.queue[1..]);
    var s' := RanTask(s, outcome);
    assert s.queue == [Replace(source)] + s1.queue;
    KindsSurviveTask(s, outcome);
    AtItsName(s', v);
    DeployEffect(s1, source, ReplaceDdl, outcome);
    if !Puts(s1, source, ReplaceDdl, outcome) { assert CoherentVdb(s, s.vdbs[v]); }
  }

  /** A replacement that leaves no database is harmless. */
  lemma ReplacedAway(s: State, outcome: Outcome)
    requires KindsAgree(s.vdbs) && s.queue != [] && s.queue[0].Replace?
    requires var v := ConnName(s.queue[0].source); v in RanTask(s, outcome).vdbs ==> !RanTask(s, outcome).vdbs[v].SourceVdb?
    ensures !HarmfulReplace(s, s.queue[0].source, s.queue[1..], outcome)
  {
    var source := s.queue[0].source;
    DeployEffect(s.(queue := s.queue[1..]), source, ReplaceDdl, outcome);
    NoNameClash(source, source);
  }

  lemma RefreshIsHarmless(s: State, outcome: Outcome)
    requires Coherent(s) && s.queue != [] && s.queue[0].Refresh?
    ensures Coherent(RanTask(s, outcome))
  {
    var s' := RanTask(s, outcome);
    RestKeepsAll(s.queue);
    forall v | v in s'.vdbs && s'.vdbs[v].SourceVdb? ensures CoherentVdb(s', s'.vdbs[v]) { CoherentLater(s, s', s.vdbs[v]); }
  }

  lemma DeletionIsHarmless(s: State, outcome: Outcome)
    requires KindsAgree(s.vdbs) && Coherent(s) && s.queue != [] && s.queue[0].Delete?
    ensures Coherent(RanTask(s, outcome))
  {
    var s' := RanTask(s, outcome);
    assert s.queue == [s.queue[0]] + s'.queue;
    forall v | v in s'.vdbs && s'.vdbs[v].SourceVdb? ensures CoherentVdb(s', s'.vdbs[v]) {
      AtItsName(s, v);
      assert CoherentVdb(s, s.vdbs[v]);
    }
  }

  lemma ConnectionsAreExact(s: State, outcome: Outcome)
    requires Sound(s) && Coherent(s) && s.queue != [] && s.queue[0].Connections?
    ensures Coherent(RanTask(s, outcome)) <==> !HarmfulTask(s, outcome)
  {
    var s1 := s.(queue := Rest(s.queue));
    RestKeepsAll(s.queue);
    forall v | v in s.vdbs && s.vdbs[v].SourceVdb? ensures CoherentVdb(s1, s.vdbs[v]) { CoherentLater(s, s1, s.vdbs[v]); }
    if s.queue[0].ops != [] {
      SoundAfterRest(s);
      OpIsExact(s1, s.queue[0].ops[0]);
    }
  }

  lemma TaskIsExact(s: State, outcome: Outcome)
    requires Sound(s) && Coherent(s)
    ensures Coherent(RanTask(s, outcome)) <==> !HarmfulTask(s, outcome)
  {
    if s.queue != [] {
      match s.queue[0]
      case Refresh => RefreshIsHarmless(s, outcome);
      case Replace(_) => ReplacementIsExact(s, outcome);
      case Delete(_) => DeletionIsHarmless(s, outcome);
      case Connections(_) => ConnectionsAreExact(s, outcome);
    }
  }

  lemma RestKeepsAll(queue: seq<Task>)
    requires queue != [] && !queue[0].Replace? && !queue[0].Delete?
    ensures forall t | t in queue && (t.Replace? || t.Delete?) :: t in Rest(queue)
  {
    forall t | t in queue && (t.Replace? || t.Delete?) ensures t in Rest(queue) { RestKeeps(queue, t); }
  }

  lemma SoundAfterRest(s: State)
    requires Sound(s) && s.queue != [] && s.queue[0].Connections?
    ensures Sound(s.(queue := Rest(s.queue)))
  {
    RestKeeps(s.queue, Refresh);
  }

  /** One step loses coherence exactly when it is harmful. */
  lemma HarmIsExact(s: State, a: Action)
    requires Sound(s) && Coherent(s)
    ensures Coherent(Step(s, a)) <==> !Harmful(s, a)
  {
    var s' := Step(s, a);
    match a
    case Deploy(name, mode, outcome) => DeployIsExact(s, name, mode, outcome);
    case FinishLoad(name, result, conflict) => LoadIsExact(s, name, result, conflict);
    case RunTask(outcome) => TaskIsExact(s, outcome);
    case _ =>
      assert forall t | t in s.queue :: t in s'.queue;
      forall v | v in s'.vdbs && s'.vdbs[v].SourceVdb? ensures CoherentVdb(s', s'.vdbs[v]) {
        CoherentLater(s, s', s.vdbs[v]);
      }
  }

  // ---------------------------------------------------------------- coherence over all runs

  /** Over every run: each source database carries its row's DDL, or a queued task will see to it, in all states,
      if and only if no step is harmful. */
  lemma {:induction false} CoherenceOverRuns(actions: seq<Action>)
    ensures AlwaysCoherent(Init, actions) <==> NeverHarmful(Init, actions)
  {
    if actions != [] {
      var n := |actions| - 1;
      CoherenceOverRuns(actions[..n]);
      SoundOverRuns(actions[..n]);
      if AlwaysCoherent(Init, actions[..n]) {
        CoherentAtTheEnd(actions[..n]);
        HarmIsExact(Run(Init, actions[..n]), actions[n]);
      }
    }
  }

  lemma CoherentAtTheEnd(actions: seq<Action>)
    requires AlwaysCoherent(Init, actions)
    ensures Coherent(Run(Init, actions))
  {}

  // ---------------------------------------------------------------- quiescence and progress

  function Weight(t: Task): nat {
    match t
    case Refresh => 1
    case Delete(_) => 1
    case Replace(_) => 2
    case Connections(ops) => 1 + OpsWeight(ops)
  }

  /** Handling a connection may start a load or queue a refresh or a deletion. */
  function OpsWeight(ops: seq<Op>): nat { 4 * |ops| }

  function QueueWeight(q: seq<Task>): nat {
    if q == [] then 0 else Weight(q[0]) + QueueWeight(q[1..])
  }

  ghost function Loads(s: State): set<string> { set v | v in s.vdbs && s.vdbs[v].LoadVdb? }

  /** Outstanding work: a load is worth a replacement and more, a replacement a refresh and more. */
  ghost function Outstanding(s: State): nat { 3 * |Loads(s)| + QueueWeight(s.queue) }

  lemma {:induction false} QueueWeightAppend(q: seq<Task>, t: Task)
    ensures QueueWeight(q + [t]) == QueueWeight(q) + Weight(t)
  {
    if q != [] {
      assert (q + [t])[1..] == q[1..] + [t];
      QueueWeightAppend(q[1..], t);
    }
  }

  /** The steps the system takes by itself: a load in flight completes, a queued task runs. */
  ghost predicate Internal(s: State, a: Action) {
    || (a.RunTask? && s.queue != [])
    || (a.FinishLoad? && LoadName(a.name) in s.vdbs && s.vdbs[LoadName(a.name)].LoadVdb?)
  }

  lemma ReplacementStartsNoLoad(s: State, source: string, outcome: Outcome)
    ensures Loads(DeploySource(s, source, ReplaceDdl, outcome)) <= Loads(s)
    ensures QueueWeight(DeploySource(s, source, ReplaceDdl, outcome).queue) <= QueueWeight(s.queue) + 1
  {
    QueueWeightAppend(s.queue, Refresh);
  }

  lemma FewerLoads(small: set<string>, large: set<string>)
    requires small <= large
    ensures |small| <= |large|
  {
    if small != large {
      var extra :| extra in large && extra !in small;
      FewerLoads(small, large - {extra});
    }
  }

  /** A deployment starts at most one load, or else queues at most one refresh. */
  lemma DeploymentWork(s: State, name: string, mode: Mode, outcome: Outcome)
    ensures Outstanding(DeploySource(s, name, mode, outcome)) <= Outstanding(s) + 3
  {
    var s' := DeploySource(s, name, mode, outcome);
    NoNameClash(name, name);
    QueueWeightAppend(s.queue, Refresh);
    if s'.queue != s.queue {
      FewerLoads(Loads(s'), Loads(s));
    } else {
      assert Loads(s') <= Loads(s) + {LoadName(name)};
      FewerLoads(Loads(s'), Loads(s) + {LoadName(name)});
    }
  }

  lemma ConnectionWork(s: State, op: Op)
    ensures Outstanding(RanOp(s, op)) <= Outstanding(s) + 3
  {
    match op
    case Add(id, held, update, naming, registers, deploy) =>
      var (s1, name) := Prepared(s, id, held, update, naming, registers);
      assert s1.vdbs == s.vdbs && s1.queue == s.queue;
      assert Loads(s1) == Loads(s);
      if name.Some? && deploy.Some? { DeploymentWork(s1, name.value, AddMode(update), deploy.value); }
    case Remove(id, held, _) =>
      QueueWeightAppend(s.queue, Delete(Printed(held)));
      assert Loads(RanOp(s, op)) == Loads(s);
  }

  lemma RestWeight(queue: seq<Task>)
    requires queue != []
    ensures QueueWeight(Rest(queue)) <= QueueWeight(queue) - if queue[0].Connections? && queue[0].ops != [] then 4 else Weight(queue[0])
  {
    if Rest(queue) != queue[1..] {
      assert Rest(queue)[1..] == queue[1..];
    }
  }

  /** Left alone, the pipeline does strictly less work with every step it takes by itself. */
  lemma InternalStepsDecrease(s: State, a: Action)
    requires Internal(s, a)
    ensures Outstanding(Step(s, a)) < Outstanding(s)
  {
    match a
    case RunTask(outcome) => TasksDecrease(s, outcome);
    case FinishLoad(name, result, conflict) =>
      assert Loads(Step(s, a)) == Loads(s) - {LoadName(name)};
      QueueWeightAppend(s.queue, Replace(s.vdbs[LoadName(name)].source));
  }

  lemma TasksDecrease(s: State, outcome: Outcome)
    requires s.queue != []
    ensures Outstanding(RanTask(s, outcome)) < Outstanding(s)
  {
    var s1, s' := s.(queue := Rest(s.queue)), RanTask(s, outcome);
    RestWeight(s.queue);
    assert Loads(s1) == Loads(s);
    match s.queue[0]
    case Replace(source) =>
      ReplacementStartsNoLoad(s1, source, outcome);
      FewerLoads(Loads(s'), Loads(s));
    case Connections(ops) => if ops != [] { ConnectionWork(s1, ops[0]); }
    case _ => FewerLoads(Loads(s'), Loads(s));
  }

  ghost predicate InternalRun(s: State, actions: seq<Action>) {
    actions == [] ||
    var n := |actions| - 1;
    InternalRun(s, actions[..n]) && Internal(Run(s, actions[..n]), actions[n])
  }

  /** So no run without outside requests is longer than the work outstanding at its start. */
  lemma {:induction false} InternalRunsAreBounded(s: State, actions: seq<Action>)
    requires InternalRun(s, actions)
    ensures |actions| + Outstanding(Run(s, actions)) <= Outstanding(s)
  {
    if actions != [] {
      var n := |actions| - 1;
      InternalRunsAreBounded(s, actions[..n]);
      InternalStepsDecrease(Run(s, actions[..n]), actions[n]);
    }
  }

  /** When nothing is outstanding, every deployed source database carries its row's current usable DDL,
      no database is left of a source without such a row, and the master imports the active ones. */
  lemma QuiescentAgreement(s: State)
    requires Sound(s) && Coherent(s) && Outstanding(s) == 0
    ensures s.queue == [] && Loads(s) == {}
    ensures forall v | v in s.vdbs && s.vdbs[v].SourceVdb? :: Current(s, s.vdbs[v])
    ensures forall name | (forall i | i in s.rows :: s.rows[i].name != name) :: ConnName(name) !in s.vdbs
    ensures forall i | i in s.rows && ConnName(s.rows[i].name) in s.vdbs ::
              exists active: bool, ddl: string ::
                s.rows[i].ddl == Some(ddl) && s.vdbs[ConnName(s.rows[i].name)] == SourceVdb(active, s.rows[i].name, i, ddl)
    ensures s.vdbs[PREVIEW_VDB] == MasterVdb(ActiveConns(s.vdbs))
  {
    assert s.queue == [] && Loads(s) == {};
    forall v | v in s.vdbs && s.vdbs[v].SourceVdb? ensures Current(s, s.vdbs[v]) {
      assert CoherentVdb(s, s.vdbs[v]);
    }
    forall name | ConnName(name) in s.vdbs
      ensures s.vdbs[ConnName(name)].SourceVdb? && s.vdbs[ConnName(name)].source == name
    {
      assert RightName(ConnName(name), s.vdbs[ConnName(name)]);
      forall x: string ensures ConnName(name) == ConnName(x) ==> x == name { NoNameClash(name, x); }
      forall x: string ensures ConnName(name) != LoadName(x) { NoNameClash(name, x); }
      NoNameClash(name, name);
    }
  }
}
